/** The projections as the stores execute them: read a row, then write it. */
module ProjectionStore {
  import opened Text
  import opened Protocol
  import opened Projections

  /** The message and tool-call rows of one run, on the agent or on the server. */
  class RunRows {
    var messages: map<MessageKey, MessageRow>
    var tools: map<ToolKey, ToolRow>

    constructor ()
      ensures messages == map[] && tools == map[]
    {
      messages, tools := map[], map[];
    }

    /** `ORDER BY seq_start DESC LIMIT 1` */
    method LastRunMessage(role: string) returns (last: Option<MessageKey>)
      ensures last == LastMessage(messages, role)
    {
      last := None;
      var pending := messages.Keys;
      while pending != {}
        invariant pending <= messages.Keys
        invariant last.Some? ==> last.value in messages && last.value.role == role
        invariant forall k :: k in messages && k !in pending && k.role == role ==>
          last.Some? && k.seqStart <= last.value.seqStart
        decreases pending
      {
        var k :| k in pending;
        if k.role == role && (last.None? || last.value.seqStart < k.seqStart) {
          last := Some(k);
        }
        pending := pending - {k};
      }
    }

    method UpsertRunMessage(e: RunEvent, role: string, status: string, finished: bool)
      modifies this`messages
      ensures messages == UpsertMessage(old(messages), e, role, status, finished)
    {
      hide PayloadText;
      var k, content := MessageKey(e.seqNo, role), PayloadText(e.payload);
      var row := MessageRow(e.seqNo, content, e.payload, status, e.at, When(e.at, finished));
      if k in messages {
        row := row.(startedAt := messages[k].startedAt);
        if content == "" {
          row := row.(content := messages[k].content);
        }
      }
      messages := messages[k := row];
    }

    method AppendRunMessage(e: RunEvent)
      modifies this`messages
      ensures messages == AppendMessage(old(messages), e)
    {
      hide PayloadText;
      var content := PayloadText(e.payload);
      if content == "" {
        return;
      }
      var last := LastRunMessage("assistant");
      if last.Some? {
        var row := messages[last.value];
        messages := messages[last.value :=
          row.(seqEnd := e.seqNo, content := row.content + content, payload := e.payload, status := "streaming")];
        return;
      }
      UpsertRunMessage(e, "assistant", "streaming", false);
    }

    method FinishRunMessage(e: RunEvent)
      modifies this`messages
      ensures messages == FinishMessage(old(messages), e)
    {
      hide PayloadText;
      var content := PayloadText(e.payload);
      var last := LastRunMessage("assistant");
      if last.Some? {
        var row := messages[last.value].(seqEnd := e.seqNo, payload := e.payload, status := "done", finishedAt := Some(e.at));
        if content != "" {
          row := row.(content := content);
        }
        messages := messages[last.value := row];
        return;
      }
      UpsertRunMessage(e, "assistant", "done", true);
    }

    method UpsertToolRow(e: RunEvent)
      modifies this`tools
      ensures tools == UpsertToolCall(old(tools), e)
    {
      hide PayloadString, PayloadObject, ToolStatus;
      var k, status := ToolId(e), ToolStatus(e.kind);
      var row := ToolRow(e.seqNo, e.seqNo, PayloadString(e.payload, ["tool_name", "name", "tool"]),
        PayloadObject(e.payload, ["arguments", "args"]), PayloadObject(e.payload, ["output", "result", "text"]), status,
        PayloadString(e.payload, ["approval_id"]), e.at, When(e.at, status in {"done", "output"}));
      if k in tools {
        var was := tools[k];
        row := row.(seqStart := was.seqStart, startedAt := was.startedAt);
        if row.name == "" { row := row.(name := was.name); }
        if row.approvalId == "" { row := row.(approvalId := was.approvalId); }
        if row.finishedAt.None? { row := row.(finishedAt := was.finishedAt); }
      }
      tools := tools[k := row];
    }

    /** `projectRunView` of the agent. */
    method ProjectRunView(e: RunEvent)
      modifies this
      ensures LocalView(messages, tools) == ProjectLocal(LocalView(old(messages), old(tools)), e)
    {
      hide IsUsageKind, TrimSpace, AppendMessage, FinishMessage, UpsertMessage, UpsertToolCall, TerminalIsToolCall;
      if Blank(e.runId) || IsUsageKind(e.kind) {
        return;
      }
      match e.kind
      case "assistant.message.delta" => AppendRunMessage(e);
      case "assistant.message.done" => FinishRunMessage(e);
      case "user.message" => UpsertRunMessage(e, "user", "done", true);
      case "tool.call.started" => UpsertToolRow(e);
      case "tool.call.delta" => UpsertToolRow(e);
      case "tool.call.done" => UpsertToolRow(e);
      case "tool.output" => UpsertToolRow(e);
      case "approval.requested" => UpsertToolRow(e);
      case "terminal.output" =>
        if TerminalIsToolCall(e.payload) {
          UpsertToolRow(e);
        }
      case _ =>
    }
  }

  /** The server's views of one run. */
  class RunViews {
    const rows: RunRows
    var steps: map<StepKey, StepRow>
    var timeline: map<TimelineKey, TimelineRow>
    var lastSeq: nat

    ghost function Snapshot(): View
      reads this, rows
    {
      View(steps, rows.messages, rows.tools, timeline, lastSeq)
    }

    constructor ()
      ensures Snapshot() == EMPTY && fresh(rows)
    {
      rows := new RunRows();
      steps, timeline, lastSeq := map[], map[], 0;
    }

    method UpsertRunStep(e: RunEvent, s: StepSpec)
      modifies this`steps
      ensures steps == UpsertStep(old(steps), e, s)
    {
      var k, row := StepKey(e.seqNo, s.kind), NewStep(e, s);
      if k in steps {
        row := row.(startedAt := steps[k].startedAt);
      }
      steps := steps[k := row];
    }

    method ProjectTimeline(e: RunEvent)
      modifies this`timeline
      ensures timeline == if e.runId == "" || IsUsageKind(e.kind) || TimelineOf(e).None? then old(timeline)
        else UpsertTimeline(old(timeline), TimelineOf(e).value.0, TimelineOf(e).value.1)
    {
      hide IsUsageKind, TimelineOf;
      if e.runId == "" || IsUsageKind(e.kind) {
        return;
      }
      var item := TimelineOf(e);
      if item.None? {
        return;
      }
      var k, row := item.value.0, item.value.1;
      if k in timeline {
        var was := timeline[k];
        row := row.(sessionId := OrElse(row.sessionId, was.sessionId), projectId := OrElse(row.projectId, was.projectId),
          threadId := OrElse(row.threadId, was.threadId), turnId := OrElse(row.turnId, was.turnId),
          itemType := OrElse(row.itemType, was.itemType), role := OrElse(row.role, was.role),
          text := OrElse(row.text, was.text), status := OrElse(row.status, was.status));
      }
      timeline := timeline[k := row];
    }

    method AdvanceCursor(e: RunEvent)
      modifies this`lastSeq
      ensures lastSeq == if e.runId != "" && e.seqNo > old(lastSeq) then e.seqNo else old(lastSeq)
    {
      if e.runId == "" || e.seqNo == 0 {
        return;
      }
      if e.seqNo > lastSeq {
        lastSeq := e.seqNo;
      }
    }

    method ProjectMessage(e: RunEvent)
      modifies rows
      ensures rows.messages == ProjectMessages(old(rows.messages), e) && rows.tools == old(rows.tools)
    {
      hide AppendMessage, FinishMessage, UpsertMessage;
      match e.kind
      case "assistant.message.delta" => rows.AppendRunMessage(e);
      case "assistant.message.done" => rows.FinishRunMessage(e);
      case "user.message" => rows.UpsertRunMessage(e, "user", "done", true);
      case _ =>
    }

    method ProjectRunEvent(e: RunEvent)
      modifies this, rows
      ensures Snapshot() == ProjectRows(old(Snapshot()), e).(timeline := old(timeline))
    {
      hide IsUsageKind, ProjectMessages, UpsertStep, UpsertTimeline, UpsertToolCall, StepOf, TimelineOf, TouchesTools;
      if e.runId == "" || IsUsageKind(e.kind) {
        return;
      }
      ProjectMessage(e);
      var step := StepOf(e);
      if step.Some? {
        UpsertRunStep(e, step.value);
      }
      if TouchesTools(e) {
        rows.UpsertToolRow(e);
      }
    }

    /** Everything of an event but its cursor. */
    method ProjectEventRows(e: RunEvent)
      modifies this, rows
      ensures Snapshot() == ProjectRows(old(Snapshot()), e)
    {
      hide IsUsageKind, ProjectMessages, UpsertStep, UpsertTimeline, UpsertToolCall, StepOf, TimelineOf, TouchesTools;
      ProjectRunEvent(e);
      ProjectTimeline(e);
    }

    /** What the transaction of one event does here. */
    method ProjectEvent(e: RunEvent)
      modifies this, rows
      ensures Snapshot() == Project(old(Snapshot()), e)
    {
      hide IsUsageKind, ProjectMessages, UpsertStep, UpsertTimeline, UpsertToolCall, StepOf, TimelineOf, TouchesTools;
      if IsUsageKind(e.kind) {
        return;
      }
      AdvanceCursor(e);
      ProjectEventRows(e);
    }

    method ClearRunProjections()
      modifies this, rows
      ensures Snapshot() == EMPTY
    {
      steps, timeline, lastSeq := map[], map[], 0;
      rows.messages, rows.tools := map[], map[];
    }
  }
}
