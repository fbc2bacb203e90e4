/**
 * The per-client sliding-window rate limiter in front of the API
 * (`RateLimitMiddleware`). Each client host owns a bucket of the
 * timestamps of its admitted requests; a request first evicts the
 * timestamps more than a minute old from the front of its bucket, is
 * rejected with 429 when the bucket is full, and is otherwise recorded.
 */
module RateLimiting {
  import opened Wrappers

  /** Timestamps more than this many seconds before `now` leave the window. */
  const WindowSeconds: real := 60.0

  const RateLimitedStatus: nat := 429
  const RateLimitedDetail := "rate_limited"

  /** The bucket key of a request without a client. */
  const UnknownClient := "unknown"

  /** What a request gets: passed on to the application, or a JSON error response. */
  datatype Decision = Forward | Reject(status: nat, detail: string)

  /** `request.client.host if request.client else "unknown"`. */
  function ClientKey(host: Option<string>): (k: string)
    ensures host.Some? ==> k == host.value
    ensures host.None? ==> k == UnknownClient
  {
    match host
    case Some(h) => h
    case None => UnknownClient
  }

  /** `requests_per_minute or SETTINGS.rate_limit_per_minute`: a missing or zero limit falls back to the setting. */
  function Limit(requested: Option<int>, setting: int): (n: int)
    ensures n == setting || (requested.Some? && n == requested.value)
    ensures requested.Some? && requested.value != 0 ==> n == requested.value
    ensures requested.None? || requested.value == 0 ==> n == setting
  {
    if requested.Some? && requested.value != 0 then requested.value else setting
  }

  /**
   * The bucket once its stale front has been evicted: the longest suffix
   * whose first timestamp still lies within the window of `now`.
   */
  function Evict(b: seq<real>, now: real): (r: seq<real>)
    ensures |r| <= |b| && r == b[|b| - |r|..]
    ensures r == [] || now - r[0] <= WindowSeconds
    ensures forall i :: 0 <= i < |b| - |r| ==> now - b[i] > WindowSeconds
    decreases |b|
  {
    if b != [] && now - b[0] > WindowSeconds then Evict(b[1..], now) else b
  }

  /** A bucket filled by a clock that never runs backwards. */
  predicate Sorted(b: seq<real>)
  {
    forall i, j :: 0 <= i <= j < |b| ==> b[i] <= b[j]
  }

  /** The bucket after a request at `now` under `limit`: evicted, then extended when there is room. */
  function AfterRequest(b: seq<real>, now: real, limit: int): seq<real>
  {
    var kept := Evict(b, now);
    if |kept| >= limit then kept else kept + [now]
  }

  /** A limiter bound: no bucket holds more than the limit (nothing at all when it is not positive). */
  function Capacity(limit: int): nat
  {
    if limit < 0 then 0 else limit
  }

  /** On a sorted bucket, every timestamp left after eviction lies within the window of `now`. */
  lemma EvictWindow(b: seq<real>, now: real)
    requires Sorted(b)
    ensures var r := Evict(b, now); forall i :: 0 <= i < |r| ==> now - r[i] <= WindowSeconds
  {
    var r := Evict(b, now);
    var k := |b| - |r|;
    forall i | 0 <= i < |r| ensures now - r[i] <= WindowSeconds {
      assert r[0] == b[k] && r[i] == b[k + i];
      assert b[k] <= b[k + i];
    }
  }

  /** A request never grows a bucket past the limit. */
  lemma AfterRequestBound(b: seq<real>, now: real, limit: int)
    requires |b| <= Capacity(limit)
    ensures |AfterRequest(b, now, limit)| <= Capacity(limit)
  {
  }

  /**
   * With a clock that never runs backwards, the new bucket is still sorted
   * and holds only timestamps within the window of `now`: at most the
   * limit's worth of requests is admitted in any window.
   */
  lemma AfterRequestWindow(b: seq<real>, now: real, limit: int)
    requires Sorted(b) && forall i :: 0 <= i < |b| ==> b[i] <= now
    ensures var a := AfterRequest(b, now, limit);
      Sorted(a) && forall i :: 0 <= i < |a| ==> a[i] <= now && now - a[i] <= WindowSeconds
  {
    var kept := Evict(b, now);
    KeptInWindow(b, now);
    if |kept| < limit {
      SortedSnoc(kept, now);
      var a := kept + [now];
      forall i | 0 <= i < |a| ensures a[i] <= now && now - a[i] <= WindowSeconds {
        if i < |kept| {
          assert a[i] == kept[i];
        }
      }
    }
  }

  /** What eviction keeps of a sorted bucket with no timestamp after `now`. */
  lemma KeptInWindow(b: seq<real>, now: real)
    requires Sorted(b) && forall i :: 0 <= i < |b| ==> b[i] <= now
    ensures var kept := Evict(b, now);
      Sorted(kept) && forall i :: 0 <= i < |kept| ==> kept[i] <= now && now - kept[i] <= WindowSeconds
  {
    var kept := Evict(b, now);
    var k := |b| - |kept|;
    SortedSuffix(b, k);
    EvictWindow(b, now);
    forall i | 0 <= i < |kept| ensures kept[i] <= now {
      assert kept[i] == b[k + i];
    }
  }

  lemma SortedSuffix(b: seq<real>, k: nat)
    requires Sorted(b) && k <= |b|
    ensures Sorted(b[k..])
  {
    assert forall i :: 0 <= i < |b| - k ==> b[k..][i] == b[k + i];
  }

  lemma SortedSnoc(b: seq<real>, x: real)
    requires Sorted(b) && forall i :: 0 <= i < |b| ==> b[i] <= x
    ensures Sorted(b + [x])
  {
    assert forall i :: 0 <= i < |b| ==> (b + [x])[i] == b[i];
  }

  /** `RateLimitMiddleware`: the limit and the per-client buckets (`_hits`). */
  class RateLimiter {
    const requestsPerMinute: int
    var hits: map<string, seq<real>>

    /** `_hits[ip]` of the defaultdict: an unseen client has an empty bucket. */
    function Bucket(ip: string): seq<real>
      reads this
    {
      if ip in hits then hits[ip] else []
    }

    ghost predicate Valid()
      reads this
    {
      forall ip :: ip in hits ==> |hits[ip]| <= Capacity(requestsPerMinute)
    }

    constructor(requested: Option<int>, setting: int)
      ensures requestsPerMinute == Limit(requested, setting)
      ensures hits == map[]
      ensures Valid()
    {
      requestsPerMinute := Limit(requested, setting);
      hits := map[];
    }

    /**
     * `dispatch`: the client's bucket loses its stale front; a full bucket
     * rejects the request with 429 "rate_limited", otherwise `now` is
     * recorded and the request is forwarded. Other clients' buckets are
     * untouched.
     */
    method Dispatch(host: Option<string>, now: real) returns (d: Decision)
      requires Valid()
      modifies this
      ensures Valid()
      ensures var ip := ClientKey(host);
        var kept := Evict(old(Bucket(ip)), now);
        (d.Forward? <==> |kept| < requestsPerMinute)
        && (d.Reject? ==> d == Reject(RateLimitedStatus, RateLimitedDetail))
        && hits == old(hits)[ip := AfterRequest(old(Bucket(ip)), now, requestsPerMinute)]
    {
      var ip := ClientKey(host);
      var bucket := Bucket(ip);
      ghost var b0 := bucket;
      while bucket != [] && now - bucket[0] > WindowSeconds
        invariant Evict(bucket, now) == Evict(b0, now)
        decreases |bucket|
      {
        bucket := bucket[1..];
      }
      assert bucket == Evict(b0, now);
      AfterRequestBound(b0, now, requestsPerMinute);
      if |bucket| >= requestsPerMinute {
        hits := hits[ip := bucket];
        return Reject(RateLimitedStatus, RateLimitedDetail);
      }
      hits := hits[ip := bucket + [now]];
      d := Forward;
    }
  }
}
