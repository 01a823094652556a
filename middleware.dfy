/**
 * The ingress guards of the callback endpoint (app/api/webhook/response/middleware.ts):
 * client-address extraction, three header validators and a fixed-window,
 * per-address rate limiter whose buckets live in a process-wide map.
 */
module Middleware {
  import opened Outcomes
  import opened Text

  /** `RATE_LIMIT_CONFIG.windowMs`. */
  const WINDOW_MS: int := 60000
  /** `RATE_LIMIT_CONFIG.maxRequests`. */
  const MAX_REQUESTS: int := 100
  /** The largest `content-length` accepted: 10 KiB. */
  const MAX_BODY_BYTES: int := 10240
  /** User-agent fragments that mark a blocked client. */
  const BLOCKED_BOTS: seq<string> := ["scanner", "exploit", "hack", "attack", "malware"]
  const JSON_MEDIA_TYPE: string := "application/json"

  /** The request headers the guards read (`None` when absent) and the connection address `request.ip`. */
  datatype Headers = Headers(
    forwardedFor: Option<string>,
    realIp: Option<string>,
    contentType: Option<string>,
    userAgent: Option<string>,
    contentLength: Option<string>,
    connectionIp: Option<string>)

  /** A header that is present and non-empty, i.e. truthy in JavaScript. */
  predicate Present(h: Option<string>) {
    h.Some? && h.value != ""
  }

  // ---------------------------------------------------------------- client IP

  /**
   * `getClientIP`: the first comma-separated element of `x-forwarded-for`,
   * trimmed; otherwise `x-real-ip`; otherwise the connection address or `unknown`.
   */
  function GetClientIP(h: Headers): (r: string)
    ensures Present(h.forwardedFor) ==> ',' !in r && |r| <= |h.forwardedFor.value|
    ensures !Present(h.forwardedFor) && Present(h.realIp) ==> r == h.realIp.value
    ensures !Present(h.forwardedFor) && !Present(h.realIp) && Present(h.connectionIp) ==> r == h.connectionIp.value
    ensures !Present(h.forwardedFor) && !Present(h.realIp) && !Present(h.connectionIp) ==> r == "unknown"
  {
    if Present(h.forwardedFor) then
      var first := FirstField(h.forwardedFor.value, ',');
      TrimIsInnerSlice(first);
      Trim(first)
    else if Present(h.realIp) then h.realIp.value
    else if Present(h.connectionIp) then h.connectionIp.value
    else "unknown"
  }

  /** `r` is `f[lo..hi]`, white space surrounds it inside the element `f[..e]`, and that element ends at the first comma. */
  ghost predicate TrimmedElement(f: string, r: string, lo: int, hi: int, e: int) {
    && 0 <= lo <= hi <= e <= |f| && r == f[lo..hi]
    && ',' !in f[..e] && (e < |f| ==> f[e] == ',')
    && AllSpace(f[..lo]) && AllSpace(f[hi..e])
    && (r == [] || (!IsJsSpace(r[0]) && !IsJsSpace(r[|r| - 1])))
  }

  /**
   * From `x-forwarded-for` the address is the first element with its surrounding
   * white space removed: the element `f[..e]` ends at the first comma (or at the
   * end), and the address is a piece `f[lo..hi]` of it with only white space
   * around it.
   */
  lemma ForwardedAddress(h: Headers)
    requires Present(h.forwardedFor)
    ensures exists lo, hi, e :: TrimmedElement(h.forwardedFor.value, GetClientIP(h), lo, hi, e)
  {
    assert GetClientIP(h) == Trim(FirstField(h.forwardedFor.value, ','));
    TrimmedFirstElement(h.forwardedFor.value);
  }

  /** The trimmed first comma-separated element of `f` is a piece of `f` with only white space around it. */
  lemma TrimmedFirstElement(f: string)
    ensures exists lo, hi, e :: TrimmedElement(f, Trim(FirstField(f, ',')), lo, hi, e)
  {
    var first := FirstField(f, ',');
    var t := TrimStart(first);
    var r := TrimEnd(t);
    assert r == Trim(first);
    TrimmedPieces(f, first, t, r);
  }

  /**
   * A field cut at the first comma, with white space dropped at its start and
   * then at its end, leaves a piece of `f` with only white space around it.
   */
  lemma TrimmedPieces(f: string, first: string, t: string, r: string)
    requires |first| <= |f| && first == f[..|first|] && ',' !in first && (|first| < |f| ==> f[|first|] == ',')
    requires |t| <= |first| && t == first[|first| - |t|..] && AllSpace(first[..|first| - |t|])
    requires |r| <= |t| && r == t[..|r|] && AllSpace(t[|r|..])
    requires r == [] || (!IsJsSpace(r[0]) && !IsJsSpace(r[|r| - 1]))
    ensures TrimmedElement(f, r, |first| - |t|, |first| - |t| + |r|, |first|)
  {
    var e := |first|;
    var lo := e - |t|;
    var hi := lo + |r|;
    assert f[..lo] == first[..lo];
    assert t == f[lo..e] by {
      SliceOfSlice(f, 0, e, lo);
    }
    assert r == f[lo..hi] && t[|r|..] == f[hi..e] by {
      SliceOfSlice(f, lo, e, |r|);
    }
  }

  // ------------------------------------------------------------ header checks

  /** `validateContentType`: the header mentions `application/json` somewhere. */
  function ValidateContentType(h: Headers): (r: bool)
    ensures r <==> h.contentType.Some? && exists i :: OccursAt(h.contentType.value, JSON_MEDIA_TYPE, i)
  {
    if h.contentType.Some? then
      ContainsIffOccurs(h.contentType.value, JSON_MEDIA_TYPE);
      Contains(h.contentType.value, JSON_MEDIA_TYPE)
    else false
  }

  /** Some blocked fragment occurs in the lower-cased user agent. */
  predicate MentionsBlockedBot(lowerUA: string) {
    exists bot | bot in BLOCKED_BOTS :: Contains(lowerUA, bot)
  }

  /** `validateUserAgent`: rejects a present user agent naming a blocked tool, in any letter case. */
  function ValidateUserAgent(h: Headers): (r: bool)
    ensures !Present(h.userAgent) ==> r
    ensures Present(h.userAgent) ==>
      (r <==> forall bot :: bot in BLOCKED_BOTS ==> !exists i :: OccursAt(Lower(h.userAgent.value), bot, i))
  {
    if Present(h.userAgent) then
      var lowerUA := Lower(h.userAgent.value);
      forall bot | bot in BLOCKED_BOTS ensures Contains(lowerUA, bot) <==> exists i :: OccursAt(lowerUA, bot, i) {
        ContainsIffOccurs(lowerUA, bot);
      }
      !MentionsBlockedBot(lowerUA)
    else true
  }

  /** A user agent holding a blocked fragment in any mix of cases is rejected. */
  lemma BlockedInAnyCase(h: Headers, i: nat, bot: string)
    requires h.userAgent.Some? && bot in BLOCKED_BOTS
    requires i + |bot| <= |h.userAgent.value| && Lower(h.userAgent.value[i..i + |bot|]) == bot
    ensures !ValidateUserAgent(h)
  {
    var ua := h.userAgent.value;
    LowerSlice(ua, i, i + |bot|);
    assert OccursAt(Lower(ua), bot, i);
  }

  /** `validateRequestSize`: no `content-length` passes; otherwise `parseInt` of it must be at most 10 KiB. */
  function ValidateRequestSize(h: Headers): (r: bool)
    ensures !Present(h.contentLength) ==> r
    ensures Present(h.contentLength) && ParseInt(h.contentLength.value) == None ==> !r
    ensures Present(h.contentLength) && ParseInt(h.contentLength.value).Some? ==>
              (r <==> ParseInt(h.contentLength.value).value <= MAX_BODY_BYTES)
  {
    if Present(h.contentLength) then
      match ParseInt(h.contentLength.value)
      case None => false
      case Some(size) => size <= MAX_BODY_BYTES
    else true
  }

  /** A decimal `content-length` passes exactly when it is at most 10 KiB. */
  lemma DecimalLengthLimit(h: Headers, n: nat)
    requires h.contentLength == Some(Show(n))
    ensures ValidateRequestSize(h) <==> n <= MAX_BODY_BYTES
  {
    ParseIntShow(n);
  }

  // ------------------------------------------------------------- rate limiter

  /** One address's window: requests counted so far and the instant the window closes. */
  datatype Bucket = Bucket(count: int, resetTime: int)

  /** What `checkRateLimit` returns. */
  datatype RateLimitResult = RateLimitResult(allowed: bool, remaining: int, resetTime: int)

  /** The window a request at `now` is counted in: the open one, or a fresh one once it has passed. */
  function CurrentWindow(store: map<string, Bucket>, ip: string, now: int): Bucket {
    if ip !in store || now > store[ip].resetTime then Bucket(0, now + WINDOW_MS) else store[ip]
  }

  /** The bucket a request at `now` leaves behind for `ip`. */
  function NextBucket(store: map<string, Bucket>, ip: string, now: int): (b: Bucket)
    ensures ip in store && now <= store[ip].resetTime ==> b == store[ip].(count := store[ip].count + 1)
    ensures (ip !in store || now > store[ip].resetTime) ==> b == Bucket(1, now + WINDOW_MS)
  {
    var cur := CurrentWindow(store, ip, now);
    cur.(count := cur.count + 1)
  }

  /** The answer for a bucket after counting: allowed up to the limit, never a negative remainder. */
  function Verdict(b: Bucket): (r: RateLimitResult)
    ensures r.remaining >= 0
    ensures r.allowed <==> b.count <= MAX_REQUESTS
    ensures r.allowed ==> r.remaining == MAX_REQUESTS - b.count
    ensures b.count >= MAX_REQUESTS ==> r.remaining == 0
    ensures r.resetTime == b.resetTime
  {
    RateLimitResult(b.count <= MAX_REQUESTS, if MAX_REQUESTS - b.count > 0 then MAX_REQUESTS - b.count else 0, b.resetTime)
  }

  /** The buckets the periodic cleanup keeps: those whose window has not passed. */
  function Unexpired(store: map<string, Bucket>, now: int): (kept: map<string, Bucket>)
    ensures forall ip :: ip in store ==> (ip in kept <==> now <= store[ip].resetTime)
    ensures forall ip :: ip in kept ==> ip in store && kept[ip] == store[ip]
  {
    map ip | ip in store && now <= store[ip].resetTime :: store[ip]
  }

  /** The buckets after a series of requests from `ip` at the given instants. */
  function Replay(store: map<string, Bucket>, ip: string, times: seq<int>): map<string, Bucket>
    decreases |times|
  {
    if times == [] then store
    else
      var before := Replay(store, ip, times[..|times| - 1]);
      before[ip := NextBucket(before, ip, times[|times| - 1])]
  }

  /** Requests from one address never touch another address's bucket. */
  lemma {:induction false} ReplayOthersUntouched(store: map<string, Bucket>, ip: string, times: seq<int>, other: string)
    requires other != ip
    ensures other in Replay(store, ip, times) <==> other in store
    ensures other in store ==> Replay(store, ip, times)[other] == store[other]
    decreases |times|
  {
    if times != [] {
      ReplayOthersUntouched(store, ip, times[..|times| - 1], other);
    }
  }

  /**
   * Within one window opened by the first request at `times[0]`, the k-th
   * request (counting from 1) leaves a count of k and the same reset instant.
   */
  lemma {:induction false} ReplayWithinWindow(store: map<string, Bucket>, ip: string, times: seq<int>, k: nat)
    requires 0 < k <= |times|
    requires ip !in store || times[0] > store[ip].resetTime
    requires forall i :: 0 <= i < |times| ==> times[i] <= times[0] + WINDOW_MS
    ensures ip in Replay(store, ip, times[..k])
    ensures Replay(store, ip, times[..k])[ip] == Bucket(k, times[0] + WINDOW_MS)
    decreases k
  {
    var prefix := times[..k];
    assert prefix[..k - 1] == times[..k - 1];
    if k > 1 {
      ReplayWithinWindow(store, ip, times, k - 1);
    } else {
      assert Replay(store, ip, prefix[..0]) == store;
    }
  }

  /**
   * The fixed window in numbers: requests 1 to 100 of a window are allowed with
   * 99 down to 0 remaining, every later one is denied, and all report the same
   * reset instant.
   */
  lemma WindowVerdicts(store: map<string, Bucket>, ip: string, times: seq<int>, k: nat)
    requires 0 < k <= |times|
    requires ip !in store || times[0] > store[ip].resetTime
    requires forall i :: 0 <= i < |times| ==> times[i] <= times[0] + WINDOW_MS
    ensures var r := Verdict(Replay(store, ip, times[..k])[ip]);
            && (r.allowed <==> k <= MAX_REQUESTS)
            && r.remaining == (if k <= MAX_REQUESTS then MAX_REQUESTS - k else 0)
            && r.resetTime == times[0] + WINDOW_MS
  {
    ReplayWithinWindow(store, ip, times, k);
  }

  /** A request after the window's reset instant starts over: allowed, with 99 remaining. */
  lemma WindowReset(store: map<string, Bucket>, ip: string, now: int)
    requires ip in store && now > store[ip].resetTime
    ensures Verdict(NextBucket(store, ip, now)) == RateLimitResult(true, MAX_REQUESTS - 1, now + WINDOW_MS)
  {
  }

  /** The rate limiter's bucket map (`rateLimitStore`). */
  class RateLimiter {
    var buckets: map<string, Bucket>

    constructor ()
      ensures buckets == map[]
    {
      buckets := map[];
    }

    /** `checkRateLimit(ip)` at instant `now`: count the request in its window and judge it. */
    method CheckRateLimit(ip: string, now: int) returns (r: RateLimitResult)
      modifies this
      ensures buckets == old(buckets)[ip := NextBucket(old(buckets), ip, now)]
      ensures r == Verdict(buckets[ip])
    {
      var bucket: Bucket;
      if ip !in buckets || now > buckets[ip].resetTime {
        bucket := Bucket(0, now + WINDOW_MS);
        buckets := buckets[ip := bucket];
      } else {
        bucket := buckets[ip];
      }
      bucket := bucket.(count := bucket.count + 1);
      buckets := buckets[ip := bucket];
      var remaining := MAX_REQUESTS - bucket.count;
      if remaining < 0 {
        remaining := 0;
      }
      r := RateLimitResult(bucket.count <= MAX_REQUESTS, remaining, bucket.resetTime);
    }

    /** The periodic cleanup at instant `now`: delete every bucket whose window has passed. */
    method Cleanup(now: int)
      modifies this
      ensures buckets == Unexpired(old(buckets), now)
    {
      var pending := buckets.Keys;
      while pending != {}
        invariant pending <= old(buckets).Keys
        invariant buckets.Keys == (set ip | ip in old(buckets) && (ip in pending || now <= old(buckets)[ip].resetTime))
        invariant forall ip :: ip in buckets ==> buckets[ip] == old(buckets)[ip]
        decreases pending
      {
        var ip :| ip in pending;
        if now > buckets[ip].resetTime {
          buckets := buckets - {ip};
        }
        pending := pending - {ip};
      }
    }
  }
}
