/** The replay guard of an agent connection: a window of recently seen message ids and nonces.

    `Pruned` is what the guard keeps; `Log` is the full history of everything it ever recorded. The guard
    forgets expired entries on every call, and the main result is that forgetting is never observable. */
module ReplayGuard {

  datatype Envelope = Envelope(messageId: string, nonce: string, seqNo: nat)

  datatype Verdict = Accepted | Replayed | Regressed

  /** One recording of a key, whatever the call that made it went on to answer. */
  datatype Recording = Recording(key: string, at: int)

  datatype Log = Log(recordings: seq<Recording>, lastSeq: nat)

  /** Whether `key` was recorded less than `ttl` before `now`. */
  predicate Live(recordings: seq<Recording>, key: string, ttl: int, now: int) {
    exists r :: r in recordings && r.key == key && r.at + ttl > now
  }

  datatype Offering = Offering(recordings: seq<Recording>, unseen: bool)

  datatype Outcome = Outcome(log: Log, verdict: Verdict)

  /** Checks and records the keys of one envelope in order, stopping at the first live one. */
  function OfferKeys(recordings: seq<Recording>, keys: seq<string>, ttl: int, now: int): Offering
    decreases |keys|
  {
    if keys == [] then Offering(recordings, true)
    else if keys[0] == "" then OfferKeys(recordings, keys[1..], ttl, now)
    else if Live(recordings, keys[0], ttl, now) then Offering(recordings, false)
    else OfferKeys(recordings + [Recording(keys[0], now)], keys[1..], ttl, now)
  }

  /** The guard's verdict computed from the full history. */
  function Offer(log: Log, env: Envelope, ttl: int, now: int): Outcome {
    if 0 < env.seqNo < log.lastSeq then Outcome(log, Regressed)
    else
      var last := if env.seqNo > log.lastSeq then env.seqNo else log.lastSeq;
      var offering := OfferKeys(log.recordings, [env.messageId, env.nonce], ttl, now);
      Outcome(Log(offering.recordings, last), if offering.unseen then Accepted else Replayed)
  }

  /** The pruned map knows every recording that is still live, and every entry of it is a recording's expiry. */
  ghost predicate Represents(seen: map<string, int>, recordings: seq<Recording>, ttl: int, now: int) {
    && (forall key :: key in seen ==> Recording(key, seen[key] - ttl) in recordings)
    && (forall r :: r in recordings && r.at + ttl > now ==> r.key in seen && seen[r.key] >= r.at + ttl)
  }

  class Guard {
    const ttl: int
    var seen: map<string, int>
    var lastSeq: nat
    ghost var log: Log
    ghost var clock: int

    /** What the pruned map and the full history agree on. */
    ghost predicate Valid()
      reads this
    {
      ttl > 0 && lastSeq == log.lastSeq && Represents(seen, log.recordings, ttl, clock)
    }

    constructor (requested: int, ghost start: int)
      ensures Valid() && log == Log([], 0) && clock == start
      ensures ttl == if requested <= 0 then 600_000_000_000 else requested
    {
      ttl := if requested <= 0 then 600_000_000_000 else requested;
      seen := map[];
      lastSeq := 0;
      log := Log([], 0);
      clock := start;
    }

    /** Deletes every expired entry. */
    method Cleanup(now: int)
      requires Valid() && clock <= now
      modifies this`seen, this`clock
      ensures seen == Unexpired(old(seen), now)
      ensures Valid() && clock == now
    {
      var pending := seen.Keys;
      while pending != {}
        invariant pending <= old(seen).Keys && clock == old(clock)
        invariant forall key :: key in seen <==> key in old(seen) && (key in pending || old(seen)[key] > now)
        invariant forall key :: key in seen ==> seen[key] == old(seen)[key]
        decreases pending
      {
        var key :| key in pending;
        pending := pending - {key};
        if seen[key] <= now {
          seen := seen - {key};
        }
      }
      assert seen == Unexpired(old(seen), now);
      Prune(old(seen), log.recordings, ttl, clock, now);
      clock := now;
    }

    /** The loop over the id and the nonce. */
    method OfferEach(keys: seq<string>, now: int) returns (unseen: bool)
      requires Represents(seen, log.recordings, ttl, now)
      modifies this`seen, this`log
      ensures Represents(seen, log.recordings, ttl, now) && log.lastSeq == old(log).lastSeq
      ensures OfferKeys(old(log).recordings, keys, ttl, now) == Offering(log.recordings, unseen)
    {
      var i := 0;
      while i < |keys|
        invariant 0 <= i <= |keys|
        invariant Represents(seen, log.recordings, ttl, now) && log.lastSeq == old(log).lastSeq
        invariant OfferKeys(log.recordings, keys[i..], ttl, now) == OfferKeys(old(log).recordings, keys, ttl, now)
      {
        var key := keys[i];
        assert keys[i..][1..] == keys[i + 1..];
        if key != "" {
          SeenIffLive(seen, log.recordings, key, ttl, now);
          if key in seen && seen[key] > now {
            return false;
          }
          Record(seen, log.recordings, key, ttl, now);
          seen := seen[key := now + ttl];
          log := log.(recordings := log.recordings + [Recording(key, now)]);
        }
        i := i + 1;
      }
      return true;
    }

    /** The verdict, and the history it leaves, are those of the guard that never forgets. */
    method Accept(env: Envelope, now: int) returns (verdict: Verdict)
      requires Valid() && clock <= now
      modifies this
      ensures Valid() && clock == now
      ensures Outcome(log, verdict) == Offer(old(log), env, ttl, now)
    {
      Cleanup(now);
      if env.seqNo > 0 {
        if env.seqNo < lastSeq {
          return Regressed;
        }
        if env.seqNo > lastSeq {
          lastSeq := env.seqNo;
          log := log.(lastSeq := lastSeq);
        }
      }
      var unseen := OfferEach([env.messageId, env.nonce], now);
      verdict := if unseen then Accepted else Replayed;
    }
  }

  /** Forgetting what has expired keeps the representation from then on. */
  lemma Prune(seen: map<string, int>, recordings: seq<Recording>, ttl: int, earlier: int, now: int)
    requires Represents(seen, recordings, ttl, earlier) && earlier <= now
    ensures Represents(Unexpired(seen, now), recordings, ttl, now)
  {
  }

  /** What is left of the window at `now`. */
  function Unexpired(seen: map<string, int>, now: int): map<string, int> {
    map key | key in seen && seen[key] > now :: seen[key]
  }

  /** A later key check on the map is a check against the history. */
  lemma SeenIffLive(seen: map<string, int>, recordings: seq<Recording>, key: string, ttl: int, now: int)
    requires Represents(seen, recordings, ttl, now)
    ensures key in seen && seen[key] > now <==> Live(recordings, key, ttl, now)
  {
  }

  lemma Record(seen: map<string, int>, recordings: seq<Recording>, key: string, ttl: int, now: int)
    requires Represents(seen, recordings, ttl, now) && !Live(recordings, key, ttl, now)
    ensures Represents(seen[key := now + ttl], recordings + [Recording(key, now)], ttl, now)
  {
  }

  // ----- what a whole history of calls guarantees -----

  datatype Call = Call(env: Envelope, now: int)

  predicate Ordered(calls: seq<Call>) {
    forall i, j :: 0 <= i < j < |calls| ==> calls[i].now <= calls[j].now
  }

  /** The history after the first `n` calls. */
  function After(calls: seq<Call>, n: nat, ttl: int): Log
    requires n <= |calls|
  {
    if n == 0 then Log([], 0) else Offer(After(calls, n - 1, ttl), calls[n - 1].env, ttl, calls[n - 1].now).log
  }

  function VerdictOf(calls: seq<Call>, n: nat, ttl: int): Verdict
    requires n < |calls|
  {
    Offer(After(calls, n, ttl), calls[n].env, ttl, calls[n].now).verdict
  }

  predicate Carries(env: Envelope, key: string) {
    key != "" && (env.messageId == key || env.nonce == key)
  }

  /** Keys are only ever added, and all of them when none was live. */
  lemma {:induction false} OfferKeysExtends(recordings: seq<Recording>, keys: seq<string>, ttl: int, now: int)
    ensures var Offering(recordings', unseen) := OfferKeys(recordings, keys, ttl, now);
      && recordings <= recordings'
      && (unseen ==> forall i :: 0 <= i < |keys| && keys[i] != "" ==>
          Recording(keys[i], now) in recordings' && !Live(recordings, keys[i], ttl, now))
    decreases |keys|
  {
    if keys != [] && !(keys[0] != "" && Live(recordings, keys[0], ttl, now)) {
      var more := if keys[0] == "" then recordings else recordings + [Recording(keys[0], now)];
      OfferKeysExtends(more, keys[1..], ttl, now);
      assert forall i :: 0 <= i < |recordings| ==> more[i] == recordings[i];
      assert keys[0] != "" ==> more[|recordings|] == Recording(keys[0], now);
      assert forall i :: 1 <= i < |keys| ==> keys[i] == keys[1..][i - 1];
      assert forall key :: Live(recordings, key, ttl, now) ==> Live(more, key, ttl, now);
    }
  }

  lemma OfferExtends(log: Log, env: Envelope, ttl: int, now: int)
    ensures var Outcome(log', verdict) := Offer(log, env, ttl, now);
      && log.recordings <= log'.recordings
      && log.lastSeq <= log'.lastSeq
      && (verdict == Accepted ==> env.seqNo <= log'.lastSeq && (env.seqNo == 0 || log.lastSeq <= env.seqNo))
      && (verdict == Accepted ==> forall key :: Carries(env, key) ==>
          Recording(key, now) in log'.recordings && !Live(log.recordings, key, ttl, now))
  {
    var keys := [env.messageId, env.nonce];
    OfferKeysExtends(log.recordings, keys, ttl, now);
    assert keys[0] == env.messageId && keys[1] == env.nonce;
  }

  lemma {:induction false} AfterExtends(calls: seq<Call>, m: nat, n: nat, ttl: int)
    requires m <= n <= |calls|
    ensures After(calls, m, ttl).recordings <= After(calls, n, ttl).recordings
    ensures After(calls, m, ttl).lastSeq <= After(calls, n, ttl).lastSeq
  {
    if m < n {
      AfterExtends(calls, m, n - 1, ttl);
      OfferExtends(After(calls, n - 1, ttl), calls[n - 1].env, ttl, calls[n - 1].now);
    }
  }

  /** Over every history of calls on a non-decreasing clock: two accepted envelopes that share an id or a nonce are
      at least the window apart, and the non-zero sequence numbers of accepted envelopes never decrease. */
  lemma {:induction false} AcceptedEnvelopesAreSeparated(calls: seq<Call>, i: nat, j: nat, ttl: int)
    requires i < j < |calls| && Ordered(calls)
    requires VerdictOf(calls, i, ttl) == Accepted && VerdictOf(calls, j, ttl) == Accepted
    ensures forall key :: Carries(calls[i].env, key) && Carries(calls[j].env, key) ==>
      calls[i].now + ttl <= calls[j].now
    ensures calls[j].env.seqNo != 0 ==> calls[i].env.seqNo <= calls[j].env.seqNo
  {
    var before := After(calls, j, ttl);
    OfferExtends(After(calls, i, ttl), calls[i].env, ttl, calls[i].now);
    AfterExtends(calls, i + 1, j, ttl);
    OfferExtends(before, calls[j].env, ttl, calls[j].now);
    forall key | Carries(calls[i].env, key) && Carries(calls[j].env, key)
      ensures calls[i].now + ttl <= calls[j].now
    {
      assert Recording(key, calls[i].now) in After(calls, i + 1, ttl).recordings;
      var n :| 0 <= n < |before.recordings| && before.recordings[n] == Recording(key, calls[i].now);
    }
  }

  /** A rejected call still counts: the id it recorded before its nonce was refused blocks a later use of that id. */
  lemma RejectedCallsAreRemembered(ttl: int)
    requires ttl > 0
    ensures var calls := [Call(Envelope("a", "n", 0), 0), Call(Envelope("b", "n", 0), 0), Call(Envelope("b", "m", 0), 0)];
      VerdictOf(calls, 1, ttl) == Replayed && VerdictOf(calls, 2, ttl) == Replayed
  {
    var calls := [Call(Envelope("a", "n", 0), 0), Call(Envelope("b", "n", 0), 0), Call(Envelope("b", "m", 0), 0)];
    var log1 := [Recording("a", 0), Recording("n", 0)];
    var log2 := log1 + [Recording("b", 0)];
    OfferTwo([], "a", "n", ttl, 0);
    assert [Recording("a", 0)] + [Recording("n", 0)] == log1;
    assert After(calls, 0, ttl).recordings == [] && After(calls, 1, ttl).recordings == log1;
    assert log1[0] == Recording("a", 0) && log2[1] == Recording("n", 0) && log2[2] == Recording("b", 0);
    OfferTwo(log1, "b", "n", ttl, 0);
    assert After(calls, 2, ttl).recordings == log2;
    OfferTwo(log2, "b", "m", ttl, 0);
  }

  lemma OfferTwo(recordings: seq<Recording>, a: string, b: string, ttl: int, now: int)
    requires a != "" && b != ""
    ensures OfferKeys(recordings, [a, b], ttl, now) ==
      if Live(recordings, a, ttl, now) then Offering(recordings, false)
      else if Live(recordings + [Recording(a, now)], b, ttl, now) then Offering(recordings + [Recording(a, now)], false)
      else Offering(recordings + [Recording(a, now)] + [Recording(b, now)], true)
  {
    assert [a, b][1..] == [b] && [b][1..] == [];
    var more := recordings + [Recording(a, now)];
    assert OfferKeys(more, [b], ttl, now) == if Live(more, b, ttl, now) then Offering(more, false)
      else OfferKeys(more + [Recording(b, now)], [b][1..], ttl, now);
  }
}
