/** The agent's side of the channel: an event is saved before it is sent, and pending ones are sent again. */
module Outbox {
  import opened Text
  import opened Protocol
  import L = LocalStore
  import T = Timestamps

  /** `ORDER BY event_at, seq`, where the times are compared as text. */
  predicate NotLater(a: RunEvent, b: RunEvent) {
    T.NotAfter(a.at, b.at) && (T.NotAfter(b.at, a.at) ==> a.seqNo <= b.seqNo)
  }

  lemma NotLaterIsOrder(a: RunEvent, b: RunEvent, c: RunEvent)
    ensures NotLater(a, b) || NotLater(b, a)
    ensures NotLater(a, b) && NotLater(b, c) ==> NotLater(a, c)
  {
    hide T.NotAfter;
    T.OrderIsTotal(a.at, b.at, c.at);
    T.OrderIsTotal(b.at, c.at, a.at);
    T.OrderIsTotal(c.at, a.at, b.at);
  }

  /** Rows are stored under their event's id. */
  ghost predicate Keyed(rows: map<string, L.OutboxRow>) {
    forall id :: id in rows ==> rows[id].event.eventId == id
  }

  predicate Pending(rows: map<string, L.OutboxRow>, e: RunEvent) {
    e.eventId in rows && rows[e.eventId].event == e && !rows[e.eventId].acked
  }

  /** Up to `n` pending events, oldest first, none left out for a later one. */
  ghost predicate TakesOldest(rows: map<string, L.OutboxRow>, n: nat, events: seq<RunEvent>) {
    && |events| <= n
    && (forall e :: e in events ==> Pending(rows, e))
    && (forall i, j :: 0 <= i < j < |events| ==> events[i] != events[j] && NotLater(events[i], events[j]))
    && (forall e :: Pending(rows, e) && e !in events ==> |events| == n)
    && (forall e, x :: Pending(rows, e) && e !in events && x in events ==> NotLater(x, e))
  }

  /** Rows of other events are as they were, and no row is lost or unsettled. */
  ghost predicate OthersKept(rows: map<string, L.OutboxRow>, id: string, rows': map<string, L.OutboxRow>) {
    forall k | k in rows ::
      && k in rows' && (k != id ==> rows'[k] == rows[k]) && (rows[k].acked ==> rows'[k].acked)
  }

  function MarkError(rows: map<string, L.OutboxRow>, id: string): map<string, L.OutboxRow> {
    if Blank(id) || id !in rows then rows else rows[id := rows[id].(failed := true)]
  }

  /** The rows after the first events of a flush have gone out. */
  function Flushed(rows: map<string, L.OutboxRow>, events: seq<RunEvent>): map<string, L.OutboxRow> {
    if events == [] then rows
    else
      var id := events[|events| - 1].eventId;
      var before := Flushed(rows, events[..|events| - 1]);
      if Blank(id) then before else L.MarkSent(before, id)
  }

  /** What of a flush goes on the wire: usage events are settled without being sent. */
  function Sent(events: seq<RunEvent>): (r: seq<RunEvent>)
    ensures forall e :: e in r ==> e in events && !IsUsageKind(e.kind)
  {
    if events == [] then []
    else
      var last := events[|events| - 1];
      Sent(events[..|events| - 1]) + if IsUsageKind(last.kind) then [] else [last]
  }

  class Client {
    const store: L.Store
    /** Everything written to the connection. */
    var wire: seq<RunEvent>

    constructor (store: L.Store)
      ensures this.store == store && wire == []
    {
      this.store, wire := store, [];
    }

    /** Saved first: if the save fails nothing is sent, and a send that fails leaves the event pending. `broken` and
        `offline` say that the save or the send fails. */
    method Emit(e: RunEvent, broken: bool, offline: bool) returns (ok: bool, outcome: L.SaveOutcome)
      modifies this`wire, store
      ensures wire == old(wire) || wire == old(wire) + [e]
      ensures wire != old(wire) ==> ok && !IsUsageKind(e.kind) && outcome != L.Failed
      ensures outcome == L.Saved ==> e.eventId in store.events && store.events[e.eventId].event == e
      ensures outcome == L.Failed ==> !ok && store.Snapshot() == old(store.Snapshot())
      ensures ok && !IsUsageKind(e.kind) && offline ==> wire == old(wire)
      ensures ok && !IsUsageKind(e.kind) && !offline ==> wire == old(wire) + [e]
      ensures OthersKept(old(store.events), e.eventId, store.events)
    {
      hide IsUsageKind, L.ProjectRunState, TrimSpace;
      if IsUsageKind(e.kind) {
        return true, L.Skipped;
      }
      if broken {
        return false, L.Failed;
      }
      outcome := store.SaveRunEvent(e);
      if outcome == L.Failed {
        return false, outcome;
      }
      if offline {
        store.events := MarkError(store.events, e.eventId);
        return true, outcome;
      }
      wire := wire + [e];
      var first := store.MarkRunEventSent(e);
      return true, outcome;
    }

    method OldestOf(events: set<RunEvent>) returns (e: RunEvent)
      requires events != {}
      ensures e in events && forall x :: x in events ==> NotLater(e, x)
    {
      hide NotLater;
      e :| e in events;
      NotLaterIsOrder(e, e, e);
      var rest := events - {e};
      while rest != {}
        invariant e in events && rest <= events
        invariant forall x :: x in events && x !in rest ==> NotLater(e, x)
        decreases rest
      {
        var x :| x in rest;
        if !NotLater(e, x) {
          forall y
            ensures NotLater(e, y) ==> NotLater(x, y)
            ensures NotLater(x, x)
          {
            NotLaterIsOrder(e, x, y);
            NotLaterIsOrder(x, e, y);
            NotLaterIsOrder(x, x, x);
          }
          e := x;
        }
        rest := rest - {x};
      }
    }

    method PendingRunEvents(limit: int) returns (events: seq<RunEvent>)
      requires Keyed(store.events)
      ensures TakesOldest(store.events, if limit <= 0 || limit > 1000 then 200 else limit, events)
    {
      hide Pending, NotLater;
      var n := if limit <= 0 || limit > 1000 then 200 else limit;
      events := [];
      var open := set id | id in store.events && !store.events[id].acked :: store.events[id].event;
      PendingAreOpen(store.events, open);
      while open != {} && |events| < n
        invariant |events| <= n
        invariant forall e :: Pending(store.events, e) <==> e in open || e in events
        invariant forall e :: e in events ==> e !in open
        invariant forall i, j :: 0 <= i < j < |events| ==> events[i] != events[j] && NotLater(events[i], events[j])
        invariant forall e, x :: e in open && x in events ==> NotLater(x, e)
        decreases open
      {
        var e := OldestOf(open);
        events := events + [e];
        open := open - {e};
      }
    }

    /** Sends the pending events again, in order, until one send fails; `until` of them succeed. */
    method FlushRunEventOutbox(until: nat) returns (ok: bool, ghost events: seq<RunEvent>, ghost n: nat)
      requires Keyed(store.events)
      modifies this`wire, store`events
      ensures TakesOldest(old(store.events), 200, events) && n <= |events|
      ensures ok <==> n == |events|
      ensures wire == old(wire) + Sent(events[..n])
      ensures store.events == if ok then Flushed(old(store.events), events)
        else MarkError(Flushed(old(store.events), events[..n]), events[n].eventId)
    {
      hide IsUsageKind, Blank, TakesOldest, Sent, Flushed, L.MarkSent;
      var pending := PendingRunEvents(200);
      NothingFlushed(store.events, pending);
      events := pending;
      var i := 0;
      while i < |pending|
        invariant 0 <= i <= |pending|
        invariant wire == old(wire) + Sent(pending[..i])
        invariant store.events == Flushed(old(store.events), pending[..i])
      {
        FlushOne(old(store.events), pending, i);
        var e := pending[i];
        if IsUsageKind(e.kind) {
          var first := store.MarkRunEventSent(e);
        } else {
          if i >= until {
            store.events := MarkError(store.events, e.eventId);
            return false, events, i;
          }
          wire := wire + [e];
          var first := store.MarkRunEventSent(e);
        }
        i := i + 1;
      }
      assert pending[..i] == pending;
      return true, events, |pending|;
    }
  }

  /** The order is not quite that of time: of two events of one second the later is listed first exactly when the written
      fraction of the earlier begins that of the later. */
  lemma LaterIsListedFirstIff(a: RunEvent, b: RunEvent)
    requires a.at < b.at
    ensures !NotLater(a, b) <==> T.Second(a.at) == T.Second(b.at) && T.Written(a.at) <= T.Written(b.at)
  {
    hide T.NotAfter;
    T.LaterSortsFirstIff(a.at, b.at);
  }

  lemma PendingAreOpen(rows: map<string, L.OutboxRow>, open: set<RunEvent>)
    requires Keyed(rows)
    requires forall e :: e in open <==> exists id :: id in rows && !rows[id].acked && rows[id].event == e
    ensures forall e :: Pending(rows, e) <==> e in open
  {
  }

  lemma NothingFlushed(rows: map<string, L.OutboxRow>, events: seq<RunEvent>)
    ensures Sent(events[..0]) == [] && Flushed(rows, events[..0]) == rows
  {
  }

  lemma FlushOne(rows: map<string, L.OutboxRow>, events: seq<RunEvent>, i: nat)
    requires i < |events|
    ensures Sent(events[..i + 1]) == Sent(events[..i]) + if IsUsageKind(events[i].kind) then [] else [events[i]]
    ensures Flushed(rows, events[..i + 1]) == if Blank(events[i].eventId) then Flushed(rows, events[..i])
      else L.MarkSent(Flushed(rows, events[..i]), events[i].eventId)
  {
    hide IsUsageKind, Blank, L.MarkSent;
    assert events[..i + 1][..i] == events[..i];
  }

  /** A flush sends only pending events, keeps every row and its event, and settles none. */
  lemma {:induction false} FlushKeepsRows(rows: map<string, L.OutboxRow>, events: seq<RunEvent>)
    ensures var rows' := Flushed(rows, events);
      && rows'.Keys == rows.Keys
      && forall id :: id in rows ==> rows'[id].event == rows[id].event && rows'[id].acked == rows[id].acked
  {
    hide Blank;
    if events != [] {
      FlushKeepsRows(rows, events[..|events| - 1]);
    }
  }

  /** What a flush puts on the wire is exactly what the channel may send: events whose row holds them unacked. */
  lemma FlushSendsPending(rows: map<string, L.OutboxRow>, n: nat, events: seq<RunEvent>, k: nat, e: RunEvent)
    requires TakesOldest(rows, n, events) && k <= |events| && e in Sent(events[..k])
    ensures Pending(rows, e) && !IsUsageKind(e.kind)
  {
    hide IsUsageKind, Sent;
    assert e in events[..k];
    assert e in events;
  }
}
