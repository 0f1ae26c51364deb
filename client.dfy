/**
 * Model of the read-through cache client of package `client` (main.go).
 *
 * The client keeps a map from a composite "db|key" string to the last value
 * fetched for that key and the time of that fetch. `Get` answers from the map
 * while the entry is fresh and otherwise issues one request; `Add`, `Set` and
 * `SetWithTTL` issue one request each and never look at the map.
 *
 * The network is abstracted as a `FetchOutcome` argument (what the single
 * request and the reading of its body produced) and the clock as an integer
 * `now` argument.
 */
module Client {

  datatype Option<T> = None | Some(value: T)

  /** The separator that `mergeDbAndKey` puts between namespace and key. */
  const Separator: char := '|'

  /** One cache entry: the value last fetched and when it was fetched. */
  datatype LastUpdated = LastUpdated(value: string, lastUpdated: int)

  type Cache = map<string, LastUpdated>

  /**
   * What one outbound request yields: the request itself failed, the body
   * could not be read, or a response with a status code and a body.
   */
  datatype FetchOutcome = TransportErr | ReadErr | Resp(status: int, body: string)

  /** The errors the client returns, as tags rather than formatted text. */
  datatype Error = TransportError | ReadError | StatusError(status: int, body: string)

  /**
   * What a call returns to its caller: the string and the error of the Go
   * signature, and whether an outbound request was issued.
   */
  datatype Reply = Reply(value: string, err: Option<Error>, fetched: bool)

  /** A reply together with the cache after the call. */
  datatype Step = Step(reply: Reply, cache: Cache)

  // ---------------------------------------------------------------------
  // Composite cache key
  // ---------------------------------------------------------------------

  /** The cache key of a (namespace, key) pair: both joined by `Separator`. */
  function MergeDbAndKey(db: string, key: string): (k: string)
    ensures |k| == |db| + 1 + |key|
    ensures k[..|db|] == db && k[|db|] == Separator && k[|db| + 1..] == key
  {
    db + [Separator] + key
  }

  /** Index of the first `Separator` in `s`, or `|s|` when there is none. */
  function FirstSeparator(s: string): (i: nat)
    ensures i <= |s|
    ensures forall j :: 0 <= j < i ==> s[j] != Separator
    ensures i < |s| ==> s[i] == Separator
  {
    if s == [] then 0
    else if s[0] == Separator then 0
    else 1 + FirstSeparator(s[1..])
  }

  /**
   * Splits a composite key at its first separator: the inverse of
   * `MergeDbAndKey` for namespaces that do not contain the separator.
   */
  function SplitKey(k: string): (r: Option<(string, string)>)
    ensures r.None? <==> Separator !in k
    ensures r.Some? ==> Separator !in r.value.0 && MergeDbAndKey(r.value.0, r.value.1) == k
  {
    var i := FirstSeparator(k);
    if i == |k| then None
    else
      assert k == k[..i] + [Separator] + k[i + 1..];
      Some((k[..i], k[i + 1..]))
  }

  lemma SplitMergeRoundTrip(db: string, key: string)
    requires Separator !in db
    ensures SplitKey(MergeDbAndKey(db, key)) == Some((db, key))
  {
    var k := MergeDbAndKey(db, key);
    var i := FirstSeparator(k);
    assert k[|db|] == Separator;
    assert i == |db|;
  }

  /** Distinct pairs get distinct cache keys as long as no namespace holds the separator. */
  lemma MergeInjective(db1: string, key1: string, db2: string, key2: string)
    requires Separator !in db1 && Separator !in db2
    requires MergeDbAndKey(db1, key1) == MergeDbAndKey(db2, key2)
    ensures db1 == db2 && key1 == key2
  {
    SplitMergeRoundTrip(db1, key1);
    SplitMergeRoundTrip(db2, key2);
  }

  /** Without that restriction two distinct pairs share one cache key. */
  lemma MergeCollides(db: string, middle: string, key: string)
    ensures MergeDbAndKey(db + [Separator] + middle, key) == MergeDbAndKey(db, middle + [Separator] + key)
    ensures (db + [Separator] + middle, key) != (db, middle + [Separator] + key)
  {
    assert |db + [Separator] + middle| != |db|;
  }

  // ---------------------------------------------------------------------
  // The freshness policy and the specification of Get
  // ---------------------------------------------------------------------

  /** The miss test of `Get`: no entry, or the entry is strictly older than the window. */
  function IsMiss(cache: Cache, cacheFor: int, k: string, now: int): (miss: bool)
    // a key never fetched always misses
    ensures k !in cache ==> miss
    // a stored entry misses exactly when `now` lies strictly after its expiry time
    ensures k in cache ==> (miss <==> cache[k].lastUpdated + cacheFor < now)
  {
    k !in cache || now - cache[k].lastUpdated > cacheFor
  }

  /** An entry exactly `cacheFor` old is still served; one tick later it is not. */
  lemma FreshnessBoundary(cache: Cache, cacheFor: int, k: string)
    requires k in cache
    ensures !IsMiss(cache, cacheFor, k, cache[k].lastUpdated + cacheFor)
    ensures IsMiss(cache, cacheFor, k, cache[k].lastUpdated + cacheFor + 1)
  {
  }

  /** True when a fetch outcome is a response with status 200. */
  function Succeeded(outcome: FetchOutcome): (ok: bool)
    // a failed request or body read never succeeds
    ensures !outcome.Resp? ==> !ok
    // a response succeeds for status 200 and for no other status
    ensures outcome.Resp? ==> (ok <==> outcome.status == 200)
  {
    outcome.Resp? && outcome.status == 200
  }

  /**
   * What `Get(db, key)` at time `now` returns and leaves in the cache, when the
   * request it may issue would yield `outcome`.
   */
  function GetStep(cache: Cache, cacheFor: int, db: string, key: string, now: int, outcome: FetchOutcome): (s: Step)
    // a request is issued exactly on a miss
    ensures s.reply.fetched <==> IsMiss(cache, cacheFor, MergeDbAndKey(db, key), now)
    // hit: the stored value, no error, the cache as it was
    ensures !IsMiss(cache, cacheFor, MergeDbAndKey(db, key), now) ==>
      var k := MergeDbAndKey(db, key);
      s.reply.value == cache[k].value && s.reply.err.None? && s.cache == cache
    // successful miss: the body is returned and stored with the current time, nothing else changes
    ensures IsMiss(cache, cacheFor, MergeDbAndKey(db, key), now) && Succeeded(outcome) ==>
      var k := MergeDbAndKey(db, key);
      && s.reply.value == outcome.body && s.reply.err.None?
      && s.cache.Keys == cache.Keys + {k}
      && s.cache[k] == LastUpdated(outcome.body, now)
      && (forall k' :: k' in cache && k' != k ==> s.cache[k'] == cache[k'])
    // failed miss: an empty value, the matching error, and the whole cache untouched
    ensures IsMiss(cache, cacheFor, MergeDbAndKey(db, key), now) && !Succeeded(outcome) ==>
      && s.reply.value == ""
      && s.cache == cache
      && (outcome.TransportErr? ==> s.reply.err == Some(TransportError))
      && (outcome.ReadErr? ==> s.reply.err == Some(ReadError))
      && (outcome.Resp? ==> s.reply.err == Some(StatusError(outcome.status, outcome.body)))
    // an error is returned exactly on a failed miss
    ensures s.reply.err.Some? <==> IsMiss(cache, cacheFor, MergeDbAndKey(db, key), now) && !Succeeded(outcome)
  {
    var k := MergeDbAndKey(db, key);
    if IsMiss(cache, cacheFor, k, now) then
      match outcome
      case TransportErr => Step(Reply("", Some(TransportError), true), cache)
      case ReadErr => Step(Reply("", Some(ReadError), true), cache)
      case Resp(status, body) =>
        if status != 200 then Step(Reply("", Some(StatusError(status, body)), true), cache)
        else Step(Reply(body, None, true), cache[k := LastUpdated(body, now)])
    else
      Step(Reply(cache[k].value, None, false), cache)
  }

  /**
   * What `Add`, `Set` and `SetWithTTL` return: one request, and its body
   * whatever the status code; only a failed request or body read is an error.
   */
  function Forward(outcome: FetchOutcome): (r: Reply)
    ensures r.fetched
    ensures r.err.None? <==> outcome.Resp?
    ensures outcome.Resp? ==> r.value == outcome.body
    ensures outcome.TransportErr? ==> r.value == "" && r.err == Some(TransportError)
    ensures outcome.ReadErr? ==> r.value == "" && r.err == Some(ReadError)
  {
    match outcome
    case TransportErr => Reply("", Some(TransportError), true)
    case ReadErr => Reply("", Some(ReadError), true)
    case Resp(_, body) => Reply(body, None, true)
  }

  // ---------------------------------------------------------------------
  // The client object
  // ---------------------------------------------------------------------

  class RcfgClient {
    const url: string
    const cacheFor: int
    var localCache: Cache

    /** A new client keeps its address and window and starts with an empty cache. */
    constructor (url: string, cacheFor: int)
      ensures this.url == url && this.cacheFor == cacheFor
      ensures localCache == map[]
    {
      this.url := url;
      this.cacheFor := cacheFor;
      localCache := map[];
    }

    /** Creates a namespace; the cache is not read or written. */
    method Add(db: string, outcome: FetchOutcome) returns (value: string, err: Option<Error>)
      ensures Reply(value, err, true) == Forward(outcome)
    {
      match outcome
      case TransportErr =>
        return "", Some(TransportError);
      case ReadErr =>
        return "", Some(ReadError);
      case Resp(_, body) =>
        return body, None;
    }

    /**
     * Reads `db|key` from the cache while it is fresh, otherwise issues one
     * request and stores its body with the time `now` when the status is 200.
     */
    method Get(db: string, key: string, now: int, outcome: FetchOutcome)
      returns (value: string, err: Option<Error>, fetched: bool)
      modifies this
      ensures GetStep(old(localCache), cacheFor, db, key, now, outcome) == Step(Reply(value, err, fetched), localCache)
    {
      var k := MergeDbAndKey(db, key);
      if k !in localCache || now - localCache[k].lastUpdated > cacheFor {
        fetched := true;
        match outcome {
          case TransportErr =>
            return "", Some(TransportError), fetched;
          case ReadErr =>
            return "", Some(ReadError), fetched;
          case Resp(status, body) =>
            if status != 200 {
              return "", Some(StatusError(status, body)), fetched;
            }
            localCache := localCache[k := LastUpdated(body, now)];
            return body, None, fetched;
        }
      } else {
        return localCache[k].value, None, false;
      }
    }

    /** Stores a value remotely; the cache is not read or written, so it is not invalidated. */
    method Set(db: string, key: string, value: string, outcome: FetchOutcome) returns (body: string, err: Option<Error>)
      ensures Reply(body, err, true) == Forward(outcome)
    {
      match outcome
      case TransportErr =>
        return "", Some(TransportError);
      case ReadErr =>
        return "", Some(ReadError);
      case Resp(_, b) =>
        return b, None;
    }

    /** Stores a value remotely with an expiry hint; like `Set`, the cache is not touched. */
    method SetWithTTL(db: string, key: string, value: string, ttl: string, outcome: FetchOutcome)
      returns (body: string, err: Option<Error>)
      ensures Reply(body, err, true) == Forward(outcome)
    {
      match outcome
      case TransportErr =>
        return "", Some(TransportError);
      case ReadErr =>
        return "", Some(ReadError);
      case Resp(_, b) =>
        return b, None;
    }
  }
}
