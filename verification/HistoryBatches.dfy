/** How the agent cuts the items of a session into upload batches. Text and payload are sequences of bytes. */
module HistoryBatches {
  import opened Protocol

  /** An item as the scanner finds it. */
  datatype Scanned = Scanned(index: int, role: string, kind: string, text: string, payload: string, eventId: string, at: int)

  /** An item as it is sent. */
  datatype Item = Item(
    sessionId: string, index: int, role: string, kind: string, text: string, payload: string,
    source: string, eventId: string, at: int)

  datatype Batch = Batch(
    sessionId: string, cursor: string, reset: bool, uploadId: string, index: int, count: int, final: bool,
    items: seq<Item>)

  const MAX_ITEMS: nat := 200
  const MAX_BYTES: nat := 0x10_0000

  function Wire(sessionId: string, item: Scanned): Item {
    Item(sessionId, item.index, item.role, item.kind, item.text, item.payload, "codex.history", item.eventId, item.at)
  }

  /** The items that are sent at all: those of no usage kind, in order. */
  function Wires(sessionId: string, items: seq<Scanned>): (r: seq<Item>)
    ensures forall i :: i in r ==> !IsUsageKind(i.kind) && i.sessionId == sessionId && i.source == "codex.history"
  {
    if items == [] then []
    else
      var rest := Wires(sessionId, items[..|items| - 1]);
      var last := items[|items| - 1];
      if IsUsageKind(last.kind) then rest else rest + [Wire(sessionId, last)]
  }

  function Bytes(items: seq<Item>): nat {
    if items == [] then 0
    else Bytes(items[..|items| - 1]) + |items[|items| - 1].text| + |items[|items| - 1].payload|
  }

  /** The batch is sent as soon as this holds. */
  predicate Full(items: seq<Item>) {
    |items| >= MAX_ITEMS || Bytes(items) >= MAX_BYTES
  }

  /** It did not hold before the last item. */
  predicate Tight(items: seq<Item>) {
    items != [] && !Full(items[..|items| - 1])
  }

  function Groups(batches: seq<Batch>): (r: seq<seq<Item>>)
    ensures |r| == |batches| && forall i :: 0 <= i < |r| ==> r[i] == batches[i].items
  {
    seq(|batches|, i requires 0 <= i < |batches| => batches[i].items)
  }

  function Concat(groups: seq<seq<Item>>): seq<Item> {
    if groups == [] then [] else Concat(groups[..|groups| - 1]) + groups[|groups| - 1]
  }

  /** A partition of `items` into groups that end as early as they are full, the last one at the end. */
  ghost predicate IsCut(items: seq<Item>, groups: seq<seq<Item>>) {
    && Concat(groups) == items
    && (forall i :: 0 <= i < |groups| ==> Tight(groups[i]))
    && (forall i :: 0 <= i < |groups| - 1 ==> Full(groups[i]))
  }

  predicate InPlace(b: Batch, i: int, n: int, sessionId: string, cursor: string, uploadId: string) {
    IsPart(b, i, sessionId, cursor, uploadId) && b.index == i && b.count == n && b.final == (i == n - 1)
  }

  /** What every batch of an upload says about itself and its place. */
  predicate Numbered(batches: seq<Batch>, sessionId: string, cursor: string, uploadId: string) {
    forall i :: 0 <= i < |batches| ==> InPlace(batches[i], i, |batches|, sessionId, cursor, uploadId)
  }

  predicate IsPart(b: Batch, i: int, sessionId: string, cursor: string, uploadId: string) {
    b.sessionId == sessionId && b.cursor == cursor && b.uploadId == uploadId && b.reset == (i == 0)
  }

  predicate AreParts(batches: seq<Batch>, sessionId: string, cursor: string, uploadId: string) {
    forall i :: 0 <= i < |batches| ==> IsPart(batches[i], i, sessionId, cursor, uploadId)
  }

  ghost predicate AreClosed(batches: seq<Batch>) {
    forall i :: 0 <= i < |batches| ==> Tight(batches[i].items) && Full(batches[i].items)
  }

  lemma WiresGrow(sessionId: string, items: seq<Scanned>, i: nat)
    requires i < |items|
    ensures Wires(sessionId, items[..i + 1]) ==
      Wires(sessionId, items[..i]) + if IsUsageKind(items[i].kind) then [] else [Wire(sessionId, items[i])]
  {
    hide IsUsageKind;
    assert items[..i + 1][..i] == items[..i];
  }

  lemma CloseBatch(batches: seq<Batch>, b: Batch, sessionId: string, cursor: string, uploadId: string)
    requires AreParts(batches, sessionId, cursor, uploadId) && IsPart(b, |batches|, sessionId, cursor, uploadId)
    ensures AreParts(batches + [b], sessionId, cursor, uploadId)
    ensures Concat(Groups(batches + [b])) == Concat(Groups(batches)) + b.items
    ensures AreClosed(batches) && Tight(b.items) && Full(b.items) ==> AreClosed(batches + [b])
    ensures AreClosed(batches) && Tight(b.items) ==> IsCut(Concat(Groups(batches + [b])), Groups(batches + [b]))
  {
    hide Full, Tight;
    ConcatAdd(batches, b);
  }

  lemma ClosedIsCut(batches: seq<Batch>)
    requires AreClosed(batches)
    ensures IsCut(Concat(Groups(batches)), Groups(batches))
  {
    hide Full, Tight, Concat;
  }

  /** The scan: a batch is closed as soon as it is full. */
  method CollectBatches(sessionId: string, cursor: string, uploadId: string, items: seq<Scanned>)
    returns (batches: seq<Batch>)
    ensures AreParts(batches, sessionId, cursor, uploadId)
    ensures IsCut(Wires(sessionId, items), Groups(batches))
  {
    hide IsUsageKind, Full, Bytes, Wires, Concat, Groups, Tight, AreParts, AreClosed, IsCut;
    var reset, batchBytes := true, 0;
    var out: seq<Item> := [];
    batches := [];
    NothingScanned(sessionId, cursor, uploadId);
    var i := 0;
    while i < |items|
      invariant 0 <= i <= |items|
      invariant Concat(Groups(batches)) + out == Wires(sessionId, items[..i])
      invariant batchBytes == Bytes(out) && !Full(out) && reset == (batches == [])
      invariant AreClosed(batches) && AreParts(batches, sessionId, cursor, uploadId)
    {
      WiresGrow(sessionId, items, i);
      if !IsUsageKind(items[i].kind) {
        var wire := Wire(sessionId, items[i]);
        AddItem(out, wire);
        out := out + [wire];
        batchBytes := batchBytes + |wire.text| + |wire.payload|;
        if |out| >= MAX_ITEMS || batchBytes >= MAX_BYTES {
          var b := Batch(sessionId, cursor, reset, uploadId, 0, 0, false, out);
          CloseBatch(batches, b, sessionId, cursor, uploadId);
          batches := batches + [b];
          reset, out, batchBytes := false, [], 0;
          NothingScanned(sessionId, cursor, uploadId);
        }
      }
      i := i + 1;
    }
    assert items[..i] == items;
    ClosedIsCut(batches);
    assert Concat(Groups(batches)) + [] == Concat(Groups(batches));
    if out != [] {
      TightIfNotFull(out);
      var b := Batch(sessionId, cursor, reset, uploadId, 0, 0, true, out);
      CloseBatch(batches, b, sessionId, cursor, uploadId);
      batches := batches + [b];
    }
  }

  lemma NothingScanned(sessionId: string, cursor: string, uploadId: string)
    ensures Bytes([]) == 0 && !Full([]) && Concat(Groups([])) == [] && Wires(sessionId, []) == []
    ensures AreClosed([]) && AreParts([], sessionId, cursor, uploadId)
  {
  }

  lemma AddItem(out: seq<Item>, wire: Item)
    ensures Bytes(out + [wire]) == Bytes(out) + |wire.text| + |wire.payload|
    ensures Full(out + [wire]) <==> |out + [wire]| >= MAX_ITEMS || Bytes(out + [wire]) >= MAX_BYTES
    ensures !Full(out) ==> Tight(out + [wire])
  {
    assert (out + [wire])[..|out|] == out;
  }

  /** The batches partition the stream, each ends exactly when it is full, and they number themselves 0 to n-1; an
      upload without items is one empty batch. */
  method CutBatches(sessionId: string, cursor: string, uploadId: string, items: seq<Scanned>)
    returns (batches: seq<Batch>)
    ensures |batches| > 0 && Numbered(batches, sessionId, cursor, uploadId)
    ensures if Wires(sessionId, items) == [] then Groups(batches) == [[]]
      else IsCut(Wires(sessionId, items), Groups(batches))
  {
    hide Wires, IsCut;
    batches := CollectBatches(sessionId, cursor, uploadId, items);
    EmptyCut(Wires(sessionId, items), Groups(batches));
    if batches == [] {
      batches := [Batch(sessionId, cursor, true, uploadId, 0, 0, true, [])];
    }
    ghost var groups := Groups(batches);
    var i := 0;
    while i < |batches|
      invariant 0 <= i <= |batches| && Groups(batches) == groups
      invariant AreParts(batches, sessionId, cursor, uploadId)
      invariant forall j :: 0 <= j < i ==> InPlace(batches[j], j, |batches|, sessionId, cursor, uploadId)
    {
      batches := batches[i := batches[i].(index := i, count := |batches|, final := i == |batches| - 1)];
      i := i + 1;
    }
  }

  lemma ConcatAdd(batches: seq<Batch>, b: Batch)
    ensures Groups(batches + [b]) == Groups(batches) + [b.items]
    ensures Concat(Groups(batches + [b])) == Concat(Groups(batches)) + b.items
  {
    assert (Groups(batches) + [b.items])[..|batches|] == Groups(batches);
  }

  lemma {:induction false} BytesGrow(items: seq<Item>, k: nat)
    requires k <= |items|
    ensures Bytes(items[..k]) <= Bytes(items)
  {
    if k < |items| {
      BytesGrow(items[..|items| - 1], k);
      assert items[..|items| - 1][..k] == items[..k];
    } else {
      assert items[..k] == items;
    }
  }

  lemma TightIfNotFull(items: seq<Item>)
    requires items != [] && !Full(items)
    ensures Tight(items)
  {
    BytesGrow(items, |items| - 1);
  }

  lemma FullGrows(items: seq<Item>, k: nat)
    requires k <= |items| && Full(items[..k])
    ensures Full(items)
  {
    BytesGrow(items, k);
  }

  // ----- what the cut means -----

  /** Every batch holds one to 200 items, and less than a mebibyte before its last one. */
  lemma CutIsBounded(items: seq<Item>, groups: seq<seq<Item>>, i: nat)
    requires IsCut(items, groups) && i < |groups|
    ensures 0 < |groups[i]| <= MAX_ITEMS && Bytes(groups[i][..|groups[i]| - 1]) < MAX_BYTES
  {
    assert Tight(groups[i]);
  }

  lemma {:induction false} ConcatFromFront(groups: seq<seq<Item>>)
    requires groups != []
    ensures Concat(groups) == groups[0] + Concat(groups[1..])
  {
    if |groups| == 1 {
      assert groups[..0] == [];
    } else {
      var init, last := groups[..|groups| - 1], groups[|groups| - 1];
      assert groups[1..] == init[1..] + [last];
      calc {
        Concat(groups);
        Concat(init) + last;
        { ConcatFromFront(init); }
        groups[0] + Concat(init[1..]) + last;
        groups[0] + (Concat(init[1..]) + last);
        { ConcatLast(init[1..], last); }
        groups[0] + Concat(groups[1..]);
      }
    }
  }

  lemma ConcatLast(groups: seq<seq<Item>>, last: seq<Item>)
    ensures Concat(groups + [last]) == Concat(groups) + last
  {
    assert (groups + [last])[..|groups|] == groups;
  }

  lemma PrefixOfConcat(items: seq<Item>, groups: seq<seq<Item>>)
    requires IsCut(items, groups) && groups != []
    ensures groups[0] <= items && IsCut(items[|groups[0]|..], groups[1..])
    ensures |groups| == 1 ==> groups[0] == items
  {
    ConcatFromFront(groups);
    assert items[|groups[0]|..] == Concat(groups[1..]);
    assert |groups| == 1 ==> Concat(groups[1..]) == [];
  }

  /** The first group ends at the first point where it is full. */
  lemma FirstGroupUnique(items: seq<Item>, a: seq<seq<Item>>, b: seq<seq<Item>>)
    requires IsCut(items, a) && IsCut(items, b) && a != [] && b != []
    ensures |a[0]| <= |b[0]|
  {
    PrefixOfConcat(items, a);
    PrefixOfConcat(items, b);
    assert Tight(a[0]);
    if |b[0]| < |a[0]| {
      assert |b| > 1 && Full(b[0]);
      assert a[0][..|a[0]| - 1][..|b[0]|] == b[0];
      FullGrows(a[0][..|a[0]| - 1], |b[0]|);
    }
  }

  /** There is only one such cut, so what the agent sends is determined by the items alone. */
  lemma {:induction false} CutIsUnique(items: seq<Item>, a: seq<seq<Item>>, b: seq<seq<Item>>)
    requires IsCut(items, a) && IsCut(items, b)
    ensures a == b
    decreases |a|
  {
    if a == [] || b == [] {
      EmptyCut(items, a);
      EmptyCut(items, b);
    } else {
      FirstGroupUnique(items, a, b);
      FirstGroupUnique(items, b, a);
      PrefixOfConcat(items, a);
      PrefixOfConcat(items, b);
      assert a[0] == items[..|a[0]|] == b[0];
      CutIsUnique(items[|a[0]|..], a[1..], b[1..]);
      assert a == [a[0]] + a[1..] && b == [b[0]] + b[1..];
    }
  }

  lemma EmptyCut(items: seq<Item>, groups: seq<seq<Item>>)
    requires IsCut(items, groups)
    ensures items == [] <==> groups == []
  {
    if groups != [] {
      PrefixOfConcat(items, groups);
      assert Tight(groups[0]);
    }
  }
}
