/**
 * The callback endpoint app/api/webhook/response/route.ts: the workflow engine
 * POSTs a result for a session, the browser GETs it once, and a periodic sweep
 * drops results older than five minutes. The module-level `pendingResponses`
 * map is the field of `ResponseStore`.
 */
module ResponseRoute {
  import opened Outcomes
  import opened Js
  import opened Guards
  import Middleware

  /** Five minutes, in milliseconds: the staleness bound of POST and of the sweep. */
  const MAX_AGE_MS: int := 300000

  const CONTENT_TYPE_ERROR: string := "Content-Type debe ser application/json"
  const USER_AGENT_ERROR: string := "User-Agent no permitido"
  const SIZE_ERROR: string := "Request demasiado grande"
  const SESSION_ID_ERROR: string := "sessionId es requerido"
  const RESPONSE_ERROR: string := "response es requerido"
  const SUCCESS_ERROR: string := "success debe ser boolean"
  const TIMESTAMP_ERROR: string := "timestamp inválido"
  const STALE_ERROR: string := "Respuesta demasiado antigua"
  const PROPERTIES_ERROR: string := "data.properties debe ser array"
  const SUGGESTIONS_ERROR: string := "data.suggestions debe ser array"
  const ACTIONS_ERROR: string := "data.actions debe ser array"
  const NO_RESPONSE_MESSAGE: string := "No hay respuesta disponible para esta sesión"

  /**
   * A POST to the endpoint. `body` is the parsed JSON, or the message of the
   * error `request.json()` throws; `stamp` is what
   * `new Date(body.timestamp).getTime()` gives, `None` for NaN.
   */
  datatype PostRequest = PostRequest(headers: Middleware.Headers, body: Result<Value, string>, stamp: Option<int>)

  /** A stored result: the session it answers, the body as received, and the instant of its timestamp. */
  datatype Pending = Pending(sessionId: string, body: Value, time: int)

  /** The POST handler's answers; `ServerError` is the 500 of the `catch`, with the caught error's message. */
  datatype PostReply =
    | Accepted(sessionId: string)
    | Rejected(status: int, error: string)
    | Throttled(retryAfter: int, remaining: int, resetTime: int)
    | ServerError(details: string)

  /** `Math.ceil(ms / 1000)`: whole seconds, rounded up. */
  function CeilSeconds(ms: int): (s: int)
    ensures 1000 * (s - 1) < ms <= 1000 * s
  {
    -((-ms) / 1000)
  }

  // ------------------------------------------------------------ header guards

  /** The content-type, user-agent and size guards, in the order the handler runs them. */
  function HeaderChecks(h: Middleware.Headers): seq<Check<PostReply>> {
    [ Check(Middleware.ValidateContentType(h), Rejected(400, CONTENT_TYPE_ERROR)),
      Check(Middleware.ValidateUserAgent(h), Rejected(403, USER_AGENT_ERROR)),
      Check(Middleware.ValidateRequestSize(h), Rejected(413, SIZE_ERROR)) ]
  }

  /** The handler's first three guards: the first that fails decides the reply. */
  function HeaderGuard(h: Middleware.Headers): (r: Option<PostReply>)
    ensures r == FirstFailure(HeaderChecks(h))
  {
    var checks := HeaderChecks(h);
    if !Middleware.ValidateContentType(h) then
      FirstFailureAt(checks, 0);
      Some(Rejected(400, CONTENT_TYPE_ERROR))
    else if !Middleware.ValidateUserAgent(h) then
      FirstFailureAt(checks, 1);
      Some(Rejected(403, USER_AGENT_ERROR))
    else if !Middleware.ValidateRequestSize(h) then
      FirstFailureAt(checks, 2);
      Some(Rejected(413, SIZE_ERROR))
    else
      AllPass(checks);
      None
  }

  // ------------------------------------------------------------ body checks

  /** What `!x || typeof x !== 'string'` lets through: a string that is truthy, i.e. non-empty. */
  predicate IsFilledString(v: Value) {
    v.Str? && v.s != ""
  }

  /** The instant the result is stamped with: `now` when `timestamp` is falsy, else its parsed value. */
  function EffectiveTime(body: Value, stamp: Option<int>, now: int): Option<int> {
    if !Truthy(Get(body, "timestamp")) then Some(now) else stamp
  }

  /** The age check of line 143 passes: the result is stamped at most five minutes before `now` (or later). */
  predicate NotTooOld(time: Option<int>, now: int) {
    time.None? || now - time.value <= MAX_AGE_MS
  }

  /** `data[key]`, when `data` is truthy, is falsy or an array. */
  predicate ListOrAbsent(body: Value, key: string) {
    var data := Get(body, "data");
    !Truthy(data) || !Truthy(Get(data, key)) || Get(data, key).Arr?
  }

  /** The checks of the required fields (lines 105-124). */
  function FieldChecks(body: Value): seq<Check<PostReply>> {
    [ Check(IsFilledString(Get(body, "sessionId")), Rejected(400, SESSION_ID_ERROR)),
      Check(IsFilledString(Get(body, "response")), Rejected(400, RESPONSE_ERROR)),
      Check(Get(body, "success").Bool?, Rejected(400, SUCCESS_ERROR)) ]
  }

  /** The checks of the effective timestamp (lines 127-148). */
  function StampChecks(time: Option<int>, now: int): seq<Check<PostReply>> {
    [ Check(time.Some?, Rejected(400, TIMESTAMP_ERROR)),
      Check(NotTooOld(time, now), Rejected(400, STALE_ERROR)) ]
  }

  /** The checks of the optional `data` lists (lines 151-172). */
  function DataChecks(body: Value): seq<Check<PostReply>> {
    [ Check(ListOrAbsent(body, "properties"), Rejected(400, PROPERTIES_ERROR)),
      Check(ListOrAbsent(body, "suggestions"), Rejected(400, SUGGESTIONS_ERROR)),
      Check(ListOrAbsent(body, "actions"), Rejected(400, ACTIONS_ERROR)) ]
  }

  /** The body checks in the handler's order, each with the 400 it produces. */
  function BodyChecks(body: Value, stamp: Option<int>, now: int): seq<Check<PostReply>> {
    FieldChecks(body) + (StampChecks(EffectiveTime(body, stamp, now), now) + DataChecks(body))
  }

  /** Lines 105-124: a missing or mistyped required field decides the 400. */
  function FieldGuard(body: Value): (r: Option<PostReply>)
    ensures r == FirstFailure(FieldChecks(body))
  {
    var checks := FieldChecks(body);
    if !IsFilledString(Get(body, "sessionId")) then
      FirstFailureAt(checks, 0);
      Some(Rejected(400, SESSION_ID_ERROR))
    else if !IsFilledString(Get(body, "response")) then
      FirstFailureAt(checks, 1);
      Some(Rejected(400, RESPONSE_ERROR))
    else if !Get(body, "success").Bool? then
      FirstFailureAt(checks, 2);
      Some(Rejected(400, SUCCESS_ERROR))
    else
      AllPass(checks);
      None
  }

  /** Lines 131-148: an unparsable timestamp, then one more than five minutes old, is refused. */
  function StampGuard(time: Option<int>, now: int): (r: Option<PostReply>)
    ensures r == FirstFailure(StampChecks(time, now))
  {
    var checks := StampChecks(time, now);
    if time.None? then
      FirstFailureAt(checks, 0);
      Some(Rejected(400, TIMESTAMP_ERROR))
    else if now - time.value > MAX_AGE_MS then
      FirstFailureAt(checks, 1);
      Some(Rejected(400, STALE_ERROR))
    else
      AllPass(checks);
      None
  }

  /** Lines 151-172: a truthy `data` whose lists are present must hold arrays there. */
  function DataGuard(body: Value): (r: Option<PostReply>)
    ensures r == FirstFailure(DataChecks(body))
  {
    var checks := DataChecks(body);
    var data := Get(body, "data");
    if Truthy(data) then
      if Truthy(Get(data, "properties")) && !Get(data, "properties").Arr? then
        FirstFailureAt(checks, 0);
        Some(Rejected(400, PROPERTIES_ERROR))
      else if Truthy(Get(data, "suggestions")) && !Get(data, "suggestions").Arr? then
        FirstFailureAt(checks, 1);
        Some(Rejected(400, SUGGESTIONS_ERROR))
      else if Truthy(Get(data, "actions")) && !Get(data, "actions").Arr? then
        FirstFailureAt(checks, 2);
        Some(Rejected(400, ACTIONS_ERROR))
      else
        AllPass(checks);
        None
    else
      AllPass(checks);
      None
  }

  /**
   * Lines 105-172 of the handler: the body's field checks, then the result to
   * store. The first failing check decides the rejection; a body that passes
   * them all is stored as it came, stamped with its effective time.
   */
  function ValidateBody(body: Value, stamp: Option<int>, now: int): (r: Result<Pending, PostReply>)
    ensures r.Err? <==> FirstFailure(BodyChecks(body, stamp, now)).Some?
    ensures r.Err? ==> FirstFailure(BodyChecks(body, stamp, now)) == Some(r.error)
    ensures r.Ok? ==> EffectiveTime(body, stamp, now).Some?
                      && r.value == Pending(Get(body, "sessionId").s, body, EffectiveTime(body, stamp, now).value)
  {
    var time := EffectiveTime(body, stamp, now);
    var fc, sc, dc := FieldChecks(body), StampChecks(time, now), DataChecks(body);
    match FieldGuard(body)
    case Some(reject) =>
      PrefixFailureDecides(fc, sc + dc);
      Err(reject)
    case None =>
      AllPassPrefix(fc, sc + dc);
      match StampGuard(time, now)
      case Some(reject) =>
        PrefixFailureDecides(sc, dc);
        Err(reject)
      case None =>
        AllPassPrefix(sc, dc);
        match DataGuard(body)
        case Some(reject) => Err(reject)
        case None => Ok(Pending(Get(body, "sessionId").s, body, time.value))
  }

  /** A stored result's body is a JSON object whose session id is a non-empty string. */
  lemma AcceptedBodyShape(body: Value, stamp: Option<int>, now: int)
    requires ValidateBody(body, stamp, now).Ok?
    ensures var p := ValidateBody(body, stamp, now).value;
            body.Obj? && p.sessionId != "" && Get(body, "sessionId") == Str(p.sessionId)
            && Get(body, "response").Str? && Get(body, "success").Bool?
  {
  }

  /** A body without a timestamp is stamped with the arrival instant; a future timestamp passes the age check. */
  lemma TimestampDefaultsAndFuture(body: Value, stamp: Option<int>, now: int)
    ensures !Truthy(Get(body, "timestamp")) ==> EffectiveTime(body, stamp, now) == Some(now)
    ensures Truthy(Get(body, "timestamp")) && stamp.Some? && stamp.value >= now ==>
              BodyChecks(body, stamp, now)[4].passes
  {
  }

  // ------------------------------------------------------- the whole POST

  /**
   * Everything the POST handler checks, in order: the three header guards, the
   * rate limiter's verdict `rl`, that the body parses to something whose fields
   * can be read, then the body checks.
   */
  function PostChecks(req: PostRequest, now: int, rl: Middleware.RateLimitResult): seq<Check<PostReply>> {
    HeaderChecks(req.headers) + (GateChecks(req, now, rl) + BodyChecks(BodyValue(req), req.stamp, now))
  }

  /** The parsed body, or `undefined` when it could not be read. */
  function BodyValue(req: PostRequest): Value {
    if req.body.Ok? then req.body.value else Undefined
  }

  /**
   * The message of what the handler throws before its body checks: the parse
   * error of `request.json()`, or the TypeError of reading `sessionId` from a
   * JSON `null`.
   */
  function ReadFailure(body: Result<Value, string>): string {
    if body.Err? then body.error
    else "Cannot read properties of " + (if body.value.Null? then "null" else "undefined") + " (reading 'sessionId')"
  }

  /** The two checks between the header guards and the body checks: the rate limit, then a readable body. */
  function GateChecks(req: PostRequest, now: int, rl: Middleware.RateLimitResult): seq<Check<PostReply>> {
    [ Check(rl.allowed, Throttled(CeilSeconds(rl.resetTime - now), rl.remaining, rl.resetTime)),
      Check(req.body.Ok? && !IsNullish(req.body.value), ServerError(ReadFailure(req.body))) ]
  }

  /**
   * The POST handler's decision once the headers have been read: a result to
   * store, or the reply that refuses it. `rl` is consulted only when the header
   * guards pass, as the limiter is only called then.
   */
  function Decide(req: PostRequest, now: int, rl: Middleware.RateLimitResult): (d: Result<Pending, PostReply>)
    ensures d.Err? <==> FirstFailure(PostChecks(req, now, rl)).Some?
    ensures d.Err? ==> FirstFailure(PostChecks(req, now, rl)) == Some(d.error)
    ensures d.Ok? ==> req.body.Ok? && d == ValidateBody(req.body.value, req.stamp, now)
  {
    var hc := HeaderChecks(req.headers);
    var gc := GateChecks(req, now, rl);
    var bc := BodyChecks(BodyValue(req), req.stamp, now);
    match HeaderGuard(req.headers)
    case Some(reject) =>
      PrefixFailureDecides(hc, gc + bc);
      Err(reject)
    case None =>
      AllPassPrefix(hc, gc + bc);
      if !rl.allowed then
        FirstFailureAt(gc, 0);
        PrefixFailureDecides(gc, bc);
        Err(Throttled(CeilSeconds(rl.resetTime - now), rl.remaining, rl.resetTime))
      else if req.body.Err? || IsNullish(req.body.value) then
        FirstFailureAt(gc, 1);
        PrefixFailureDecides(gc, bc);
        Err(ServerError(ReadFailure(req.body)))
      else
        AllPass(gc);
        AllPassPrefix(gc, bc);
        ValidateBody(req.body.value, req.stamp, now)
  }

  /** The reply the handler sends for a decision. */
  function ReplyOf(d: Result<Pending, PostReply>): PostReply {
    match d
    case Ok(p) => Accepted(p.sessionId)
    case Err(e) => e
  }

  /** `pendingResponses.set(sessionId, body)` for an accepted result; nothing otherwise. */
  function Deposit(store: map<string, Pending>, d: Result<Pending, PostReply>): (s: map<string, Pending>)
    ensures d.Ok? ==> s.Keys == store.Keys + {d.value.sessionId} && s[d.value.sessionId] == d.value
    ensures forall k :: k in store && (d.Err? || k != d.value.sessionId) ==> k in s && s[k] == store[k]
    ensures d.Err? ==> s == store
  {
    if d.Ok? then store[d.value.sessionId := d.value] else store
  }

  // ------------------------------------------------------------------ GET

  /** The GET handler's answers: 400 without a session id, else 200 with a JSON object. */
  datatype GetReply = MissingSessionId | Reply(json: Value)

  function NoResponseJson(): Value {
    Obj(map["hasResponse" := Bool(false), "message" := Str(NO_RESPONSE_MESSAGE)])
  }

  /**
   * `{ hasResponse: true, ...response }`: the stored body's own properties are
   * spread after the flag, so a body carrying its own `hasResponse` overrides it.
   */
  function DeliveredJson(body: Value): (j: Value)
    ensures j.Obj?
    ensures body.Obj? ==> j.fields.Keys == body.fields.Keys + {"hasResponse"}
    ensures !body.Obj? ==> j == Obj(map["hasResponse" := Bool(true)])
    ensures body.Obj? ==> forall k :: k in body.fields ==> Get(j, k) == body.fields[k]
    ensures !(body.Obj? && "hasResponse" in body.fields) ==> Get(j, "hasResponse") == Bool(true)
  {
    Obj(map["hasResponse" := Bool(true)] + (if body.Obj? then body.fields else map[]))
  }

  /** The GET handler on a store: the reply and the store it leaves. */
  function Withdraw(store: map<string, Pending>, sessionId: Option<string>): (res: (GetReply, map<string, Pending>))
    ensures !Middleware.Present(sessionId) ==> res == (MissingSessionId, store)
    ensures Middleware.Present(sessionId) && sessionId.value !in store ==> res == (Reply(NoResponseJson()), store)
    ensures Middleware.Present(sessionId) && sessionId.value in store ==>
              res.0 == Reply(DeliveredJson(store[sessionId.value].body))
              && res.1.Keys == store.Keys - {sessionId.value}
              && forall k :: k in res.1 ==> res.1[k] == store[k]
  {
    if !Middleware.Present(sessionId) then (MissingSessionId, store)
    else if sessionId.value !in store then (Reply(NoResponseJson()), store)
    else (Reply(DeliveredJson(store[sessionId.value].body)), store - {sessionId.value})
  }

  /** The results the sweep at `now` keeps: those stamped no earlier than five minutes before. */
  function Recent(store: map<string, Pending>, now: int): (kept: map<string, Pending>)
    ensures forall k :: k in store ==> (k in kept <==> store[k].time >= now - MAX_AGE_MS)
    ensures forall k :: k in kept ==> k in store && kept[k] == store[k]
  {
    map k | k in store && store[k].time >= now - MAX_AGE_MS :: store[k]
  }

  // -------------------------------------------------------- properties

  /** Single delivery: a stored result is delivered once, and an immediate second GET finds nothing. */
  lemma SingleDelivery(store: map<string, Pending>, s: string)
    requires s != "" && s in store
    ensures var (first, after) := Withdraw(store, Some(s));
            && first == Reply(DeliveredJson(store[s].body))
            && Withdraw(after, Some(s)) == (Reply(NoResponseJson()), after)
  {
  }

  /** Last write wins: of two accepted results for one session, a GET delivers the later. */
  lemma LastWriteWins(store: map<string, Pending>, p1: Pending, p2: Pending)
    requires p1.sessionId == p2.sessionId != ""
    ensures Withdraw(Deposit(Deposit(store, Ok(p1)), Ok(p2)), Some(p2.sessionId)).0 == Reply(DeliveredJson(p2.body))
  {
  }

  /** GET applies no age check: a result past the sweep's bound is still delivered until a sweep runs. */
  lemma StaleResultStillDelivered(store: map<string, Pending>, s: string, now: int)
    requires s != "" && s in store && store[s].time < now - MAX_AGE_MS
    ensures Withdraw(store, Some(s)).0 == Reply(DeliveredJson(store[s].body))
    ensures s !in Recent(store, now)
  {
  }

  /**
   * A stored body that carries `hasResponse: false` is delivered as "no response"
   * and deleted all the same: the poller never sees it.
   */
  lemma OwnHasResponseOverrides(store: map<string, Pending>, s: string)
    requires s != "" && s in store && store[s].body.Obj?
    requires "hasResponse" in store[s].body.fields && store[s].body.fields["hasResponse"] == Bool(false)
    ensures var (reply, after) := Withdraw(store, Some(s));
            reply.Reply? && !Truthy(Get(reply.json, "hasResponse")) && s !in after
  {
  }

  /** The pending results, keyed by session id (`pendingResponses`). */
  class ResponseStore {
    var pending: map<string, Pending>

    constructor ()
      ensures pending == map[]
    {
      pending := map[];
    }

    /**
     * The POST handler at instant `now`. The limiter is only consulted once the
     * header guards pass; only a fully valid result changes the store.
     */
    method Post(req: PostRequest, now: int, limiter: Middleware.RateLimiter) returns (reply: PostReply)
      modifies this, limiter
      ensures HeaderGuard(req.headers).Some? ==>
                && reply == HeaderGuard(req.headers).value
                && limiter.buckets == old(limiter.buckets)
                && pending == old(pending)
      ensures HeaderGuard(req.headers).None? ==>
                var ip := Middleware.GetClientIP(req.headers);
                var bucket := Middleware.NextBucket(old(limiter.buckets), ip, now);
                var d := Decide(req, now, Middleware.Verdict(bucket));
                && limiter.buckets == old(limiter.buckets)[ip := bucket]
                && reply == ReplyOf(d)
                && pending == Deposit(old(pending), d)
    {
      var ip := Middleware.GetClientIP(req.headers);
      var guard := HeaderGuard(req.headers);
      if guard.Some? {
        return guard.value;
      }
      var rl := limiter.CheckRateLimit(ip, now);
      var d := Decide(req, now, rl);
      if d.Ok? {
        pending := pending[d.value.sessionId := d.value];
      }
      reply := ReplyOf(d);
    }

    /** The GET handler: hand out the session's result, removing it. */
    method Get(sessionId: Option<string>) returns (reply: GetReply)
      modifies this
      ensures (reply, pending) == Withdraw(old(pending), sessionId)
    {
      if !Middleware.Present(sessionId) {
        return MissingSessionId;
      }
      if sessionId.value !in pending {
        return Reply(NoResponseJson());
      }
      var result := pending[sessionId.value];
      pending := pending - {sessionId.value};
      reply := Reply(DeliveredJson(result.body));
    }

    /** The five-minute sweep at instant `now`: delete every result stamped before `now - 5 min`. */
    method Sweep(now: int)
      modifies this
      ensures pending == Recent(old(pending), now)
    {
      var fiveMinutesAgo := now - MAX_AGE_MS;
      var entries := pending.Keys;
      while entries != {}
        invariant entries <= old(pending).Keys
        invariant pending.Keys == (set k | k in old(pending) && (k in entries || old(pending)[k].time >= fiveMinutesAgo))
        invariant forall k :: k in pending ==> pending[k] == old(pending)[k]
        decreases entries
      {
        var k :| k in entries;
        if pending[k].time < fiveMinutesAgo {
          pending := pending - {k};
        }
        entries := entries - {k};
      }
    }
  }
}
