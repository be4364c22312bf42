/** Messages exchanged between the agent and the server. */
module Protocol {
  import opened Text

  datatype Option<+T> = None | Some(value: T)

  /** A field of a decoded JSON object; only strings are looked into. */
  datatype Json = Str(text: string) | Other(code: int)

  /** A payload up to `jsonEquivalent`: absent or null, not an object, or an object with its fields. */
  datatype Payload = NoPayload | Opaque(code: int) | Fields(fields: map<string, Json>)

  datatype RunEvent = RunEvent(
    eventId: string, runId: string, commandId: string, projectId: string, sessionId: string,
    seqNo: nat, kind: string, payload: Payload, at: int)

  datatype Ack = Ack(eventId: string, commandId: string, runId: string, status: string, ackSeq: nat)

  datatype Command = Command(
    commandId: string, runId: string, projectId: string, sessionId: string, kind: string)

  /** The event and item kinds that carry billing data and are neither stored nor sent. */
  predicate IsUsageKind(kind: string) {
    ToLower(TrimSpace(kind)) in {"usage", "response.usage", "token_usage", "billing", "cost"}
  }

  /** The first of `keys` that names a string field. */
  function PayloadString(p: Payload, keys: seq<string>): string
    decreases |keys|
  {
    if keys == [] || !p.Fields? then ""
    else if keys[0] in p.fields && p.fields[keys[0]].Str? then p.fields[keys[0]].text
    else PayloadString(p, keys[1..])
  }

  /** The first of `keys` that names a field at all. */
  function PayloadObject(p: Payload, keys: seq<string>): Option<Json>
    decreases |keys|
  {
    if keys == [] || !p.Fields? then None
    else if keys[0] in p.fields then Some(p.fields[keys[0]])
    else PayloadObject(p, keys[1..])
  }

  function PayloadText(p: Payload): string {
    PayloadString(p, ["text", "delta", "content", "message"])
  }

  /** The reason carried by a terminal event: the first non-blank string among four fields. */
  function EventReason(p: Payload): string {
    ReasonFrom(p, ["error", "reason", "message", "status"])
  }

  function ReasonFrom(p: Payload, keys: seq<string>): string
    decreases |keys|
  {
    if keys == [] || !p.Fields? then ""
    else if keys[0] in p.fields && p.fields[keys[0]].Str? && !Blank(p.fields[keys[0]].text) then
      TrimSpace(p.fields[keys[0]].text)
    else ReasonFrom(p, keys[1..])
  }

  predicate IsTerminalKind(kind: string) {
    kind in {"run.done", "run.completed", "run.error", "run.failed", "run.stopped"}
  }

  /** Kinds that start a run or end it. */
  predicate IsLifecycleKind(kind: string) {
    kind == "run.started" || IsTerminalKind(kind)
  }
}
