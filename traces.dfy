/**
 * Sequences of calls on one client: what each call returns and what the
 * cache holds afterwards, and the properties that relate several calls
 * (stamps never go back, entries are never removed, writes never invalidate,
 * a fresh entry answers every read of its key without a request).
 */
module CacheTraces {
  import opened Client

  /** One client operation, with the outcome its request would have. */
  datatype Op =
    | GetOp(db: string, key: string, outcome: FetchOutcome)
    | SetOp(db: string, key: string, value: string, outcome: FetchOutcome)
    | SetWithTTLOp(db: string, key: string, value: string, ttl: string, outcome: FetchOutcome)
    | AddOp(db: string, outcome: FetchOutcome)

  /** An operation made at clock reading `now`. */
  datatype Call = Call(now: int, op: Op)

  /** The replies of a sequence of calls, in order, and the final cache. */
  datatype Trace = Trace(replies: seq<Reply>, cache: Cache)

  /** True when `call` is a `Get` whose cache key is `k`. */
  predicate ReadsKey(call: Call, k: string)
  {
    call.op.GetOp? && MergeDbAndKey(call.op.db, call.op.key) == k
  }

  /** One call on a client whose cache is `cache`. */
  function Apply(cacheFor: int, cache: Cache, call: Call): (s: Step)
    // entries are never removed
    ensures cache.Keys <= s.cache.Keys
    // the only write stamps the current time
    ensures forall k :: k in s.cache && (k !in cache || s.cache[k] != cache[k]) ==> s.cache[k].lastUpdated == call.now
    // only a Get can change the cache, and only at its own key
    ensures forall k :: k in s.cache && (k !in cache || s.cache[k] != cache[k]) ==> ReadsKey(call, k)
  {
    match call.op
    case GetOp(db, key, outcome) => GetStep(cache, cacheFor, db, key, call.now, outcome)
    case SetOp(_, _, _, outcome) => Step(Forward(outcome), cache)
    case SetWithTTLOp(_, _, _, _, outcome) => Step(Forward(outcome), cache)
    case AddOp(_, outcome) => Step(Forward(outcome), cache)
  }

  /** The calls one after the other, starting from `cache`. */
  function Run(cacheFor: int, cache: Cache, calls: seq<Call>): (t: Trace)
    ensures |t.replies| == |calls|
    decreases |calls|
  {
    if calls == [] then Trace([], cache)
    else
      var s := Apply(cacheFor, cache, calls[0]);
      var rest := Run(cacheFor, s.cache, calls[1..]);
      Trace([s.reply] + rest.replies, rest.cache)
  }

  /** Running `a` and then `b` is running `a + b`. */
  lemma {:induction false} RunAppend(cacheFor: int, cache: Cache, a: seq<Call>, b: seq<Call>)
    ensures var ta := Run(cacheFor, cache, a);
            var tb := Run(cacheFor, ta.cache, b);
            Run(cacheFor, cache, a + b) == Trace(ta.replies + tb.replies, tb.cache)
    decreases |a|
  {
    if a != [] {
      assert (a + b)[1..] == a[1..] + b;
      RunAppend(cacheFor, Apply(cacheFor, cache, a[0]).cache, a[1..], b);
    } else {
      assert a + b == b;
    }
  }

  /** No stored stamp lies after time `t`. */
  predicate NotAfter(cache: Cache, t: int)
  {
    forall k :: k in cache ==> cache[k].lastUpdated <= t
  }

  /** The calls are made at or after `t`, in clock order. */
  predicate ClockFrom(t: int, calls: seq<Call>)
  {
    && (forall i :: 0 <= i < |calls| ==> t <= calls[i].now)
    && (forall i, j :: 0 <= i < j < |calls| ==> calls[i].now <= calls[j].now)
  }

  /** The clock reading of the last call, or `t` when there is none. */
  function LastTime(t: int, calls: seq<Call>): int
  {
    if calls == [] then t else calls[|calls| - 1].now
  }

  /**
   * With a clock that never goes back, no key is ever removed and the stamp
   * stored for a key never decreases; afterwards no stamp lies after the last
   * call, so the lemma chains from one stretch of calls to the next.
   */
  lemma {:induction false} StampsNeverDecrease(cacheFor: int, cache: Cache, calls: seq<Call>, t: int)
    requires NotAfter(cache, t)
    requires ClockFrom(t, calls)
    ensures var final := Run(cacheFor, cache, calls).cache;
            && (forall k :: k in cache ==> k in final && cache[k].lastUpdated <= final[k].lastUpdated)
            && NotAfter(final, LastTime(t, calls))
    decreases |calls|
  {
    if calls != [] {
      var s := Apply(cacheFor, cache, calls[0]);
      assert NotAfter(s.cache, calls[0].now);
      assert ClockFrom(calls[0].now, calls[1..]) by {
        forall i, j | 0 <= i < j < |calls[1..]| ensures calls[1..][i].now <= calls[1..][j].now {
          assert calls[1..][i] == calls[i + 1] && calls[1..][j] == calls[j + 1];
        }
      }
      StampsNeverDecrease(cacheFor, s.cache, calls[1..], calls[0].now);
    }
  }

  /** `Add`, `Set` and `SetWithTTL` leave the cache exactly as it was. */
  lemma {:induction false} WritesLeaveCache(cacheFor: int, cache: Cache, writes: seq<Call>)
    requires forall i :: 0 <= i < |writes| ==> !writes[i].op.GetOp?
    ensures Run(cacheFor, cache, writes).cache == cache
    decreases |writes|
  {
    if writes != [] {
      WritesLeaveCache(cacheFor, cache, writes[1..]);
    }
  }

  /**
   * While the entry for `k` stays fresh, every `Get` of `k` returns the stored
   * value without a request, and the entry itself is unchanged, whatever other
   * calls come in between and whatever their requests would have answered.
   */
  lemma {:induction false} FreshEntryServesReads(cacheFor: int, cache: Cache, calls: seq<Call>, k: string)
    requires k in cache
    requires forall i :: 0 <= i < |calls| && ReadsKey(calls[i], k) ==> calls[i].now - cache[k].lastUpdated <= cacheFor
    ensures var t := Run(cacheFor, cache, calls);
            && k in t.cache && t.cache[k] == cache[k]
            && forall i :: 0 <= i < |calls| && ReadsKey(calls[i], k) ==> t.replies[i] == Reply(cache[k].value, None, false)
    decreases |calls|
  {
    if calls != [] {
      var s := Apply(cacheFor, cache, calls[0]);
      assert s.cache[k] == cache[k];
      assert forall i :: 0 <= i < |calls[1..]| ==> calls[1..][i] == calls[i + 1];
      FreshEntryServesReads(cacheFor, s.cache, calls[1..], k);
    }
  }

  /**
   * A `Get` made within the window of a fetched entry, right after any number
   * of writes, still returns the value fetched before the writes.
   */
  lemma GetAfterWritesIsStale(cacheFor: int, cache: Cache, writes: seq<Call>, db: string, key: string, now: int, outcome: FetchOutcome)
    requires MergeDbAndKey(db, key) in cache
    requires now - cache[MergeDbAndKey(db, key)].lastUpdated <= cacheFor
    requires forall i :: 0 <= i < |writes| ==> !writes[i].op.GetOp?
    ensures Run(cacheFor, cache, writes + [Call(now, GetOp(db, key, outcome))]).replies[|writes|]
            == Reply(cache[MergeDbAndKey(db, key)].value, None, false)
  {
    WritesLeaveCache(cacheFor, cache, writes);
    RunAppend(cacheFor, cache, writes, [Call(now, GetOp(db, key, outcome))]);
  }

  /** A failed `Get` leaves no trace: the calls after it behave as if it had not been made. */
  lemma FailedGetIsInvisible(cacheFor: int, cache: Cache, now: int, db: string, key: string, outcome: FetchOutcome, rest: seq<Call>)
    requires !Succeeded(outcome)
    ensures Run(cacheFor, cache, [Call(now, GetOp(db, key, outcome))] + rest).replies[1..] == Run(cacheFor, cache, rest).replies
    ensures Run(cacheFor, cache, [Call(now, GetOp(db, key, outcome))] + rest).cache == Run(cacheFor, cache, rest).cache
  {
    assert ([Call(now, GetOp(db, key, outcome))] + rest)[1..] == rest;
  }

  /**
   * A five-unit window: a miss at 0 fetches "v1", a read at 2 is served from
   * the cache although the server now has "v2", a read at 6 fetches "v2".
   */
  lemma WindowScenario()
    ensures Run(5, map[], [
              Call(0, GetOp("db", "k", Resp(200, "v1"))),
              Call(2, GetOp("db", "k", Resp(200, "v2"))),
              Call(6, GetOp("db", "k", Resp(200, "v2")))]).replies
            == [Reply("v1", None, true), Reply("v1", None, false), Reply("v2", None, true)]
  {
  }

  /** A `Set` at 3 is not seen by a `Get` at 3 of an entry fetched at 0. */
  lemma SetScenario()
    ensures Run(5, map[], [
              Call(0, GetOp("db", "k", Resp(200, "v1"))),
              Call(3, SetOp("db", "k", "v2", Resp(200, "ok"))),
              Call(3, GetOp("db", "k", Resp(200, "v2")))]).replies[2]
            == Reply("v1", None, false)
  {
  }
}
