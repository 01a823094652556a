/**
 * The outbound dispatch of lib/webhook.ts: `WebhookService.sendMessage`
 * submits the chat message to the workflow engine up to `RETRY_ATTEMPTS`
 * times, and after each accepted submission waits for the answer through the
 * shared `ResponsePoller`. Any failure inside an attempt, the poll's included,
 * leads to a fresh submission while attempts remain.
 *
 * What each submission meets is an input: `attempts(k)` says how the POST of
 * attempt k ends and what the poll that follows it sees.
 */
module Webhook {
  import opened Outcomes
  import opened Js
  import Text
  import Utils
  import opened ChatTypes
  import opened Poller

  const ANONYMOUS: string := "anonymous"
  const CONNECT_ERROR: string := "Error al conectar con el webhook"
  const POLL_ERROR_PREFIX: string := "Error esperando respuesta: "
  const WEBHOOK_ERROR_CODE: string := "WEBHOOK_ERROR"

  /** The settings `sendMessage` hands to the poller (lines 54-58). */
  const POLL_SETTINGS: PartialConfig := PartialConfig(Some(1000), Some(30), Some(30000))

  /** How the POST of one attempt ends: a response, or a rejected fetch (a network failure or the 30 s abort). */
  datatype PostOutcome = PostAnswered(status: int, statusText: string) | PostFailed(message: string)

  /** What attempt k meets: its POST, and the instant and world of the poll that follows an accepted POST. */
  datatype Attempt = Attempt(post: PostOutcome, pollStart: int, probe: int -> Probe)

  /** The end of `sendMessage`: the answer, or the thrown `ApiError`; the POSTs made and the back-off waits between them. */
  datatype SendRun = SendRun(result: Result<WebhookResponse, ApiError>, submissions: nat, waits: seq<int>)

  /** The request body built once per `sendMessage` (lines 18-23). */
  function RequestData(message: string, userId: Option<string>, sessionId: string, now: int): (r: WebhookRequest)
    ensures r.message == Text.Trim(message) && r.sessionId == sessionId && r.timestamp == now
    ensures r.userId == ANONYMOUS <==> userId.None? || userId.value == "" || userId.value == ANONYMOUS
    ensures userId.Some? && userId.value != "" ==> r.userId == userId.value
  {
    WebhookRequest(Text.Trim(message), if userId.Some? && userId.value != "" then userId.value else ANONYMOUS, sessionId, now)
  }

  /** How the poll that follows an accepted POST of this attempt ends. */
  function PollOutcomeOf(a: Attempt): PollOutcome {
    PollFrom(Merge(DEFAULT_CONFIG, POLL_SETTINGS), a.pollStart, a.probe, 1).outcome
  }

  /** The text of the error a failed poll is rethrown as (line 63). */
  function PollFailureMessage(pollError: string): string {
    POLL_ERROR_PREFIX + Utils.GetErrorMessage(ErrorObject(pollError)).s
  }

  /** The poll's own message follows the prefix, or the fixed fallback when that message is empty. */
  lemma PollFailureText(pollError: string)
    ensures PollFailureMessage(pollError) == POLL_ERROR_PREFIX + (if pollError == "" then Utils.UNKNOWN_ERROR else pollError)
  {
    Utils.ErrorObjectMessage(pollError);
  }

  /** The body of one attempt's `try` (lines 29-64): the answer, or the message of the error it throws. */
  function AttemptResult(a: Attempt): Result<WebhookResponse, string> {
    match a.post
    case PostFailed(m) => Err(m)
    case PostAnswered(status, statusText) =>
      if !IsOk(status) then Err(HttpErrorMessage(status, statusText))
      else
        match PollOutcomeOf(a)
        case Delivered(w) => Ok(w)
        case Failed(m) => Err(PollFailureMessage(m))
  }

  /**
   * An attempt yields an answer exactly when its POST is accepted and its poll
   * delivers, and then it is the poll's answer; a POST that fails or gets a
   * non-2xx throws before any poll starts, and a failed poll throws too.
   */
  lemma AttemptOutcomes(a: Attempt)
    ensures a.post.PostFailed? ==> AttemptResult(a) == Err(a.post.message)
    ensures a.post.PostAnswered? && !IsOk(a.post.status) ==>
              AttemptResult(a) == Err(HttpErrorMessage(a.post.status, a.post.statusText))
    ensures AttemptResult(a).Ok? <==> a.post.PostAnswered? && IsOk(a.post.status) && PollOutcomeOf(a).Delivered?
    ensures AttemptResult(a).Ok? ==> AttemptResult(a).value == PollOutcomeOf(a).response
    ensures a.post.PostAnswered? && IsOk(a.post.status) && PollOutcomeOf(a).Failed? ==>
              AttemptResult(a) == Err(PollFailureMessage(PollOutcomeOf(a).message))
  {
  }

  /** `lastError?.message || 'Error al conectar con el webhook'`. */
  function FinalMessage(lastError: Option<string>): (m: string)
    ensures lastError.Some? && lastError.value != "" ==> m == lastError.value
    ensures lastError.None? || lastError.value == "" ==> m == CONNECT_ERROR
  {
    if lastError.Some? && lastError.value != "" then lastError.value else CONNECT_ERROR
  }

  /** What the `try` of each attempt yields, attempt by attempt. */
  function ResultsOf(attempts: int -> Attempt): int -> Result<WebhookResponse, string> {
    k => AttemptResult(attempts(k))
  }

  /**
   * The retry loop of lines 28-87 from attempt `attempt` on, where `results(k)`
   * is what the `try` of attempt k yields and `lastError` is the message of the
   * latest failure so far.
   */
  function SendFrom(results: int -> Result<WebhookResponse, string>, attempt: int, lastError: Option<string>): (r: SendRun)
    ensures r.result.Err? ==> r.result.error.status == 500 && r.result.error.code == WEBHOOK_ERROR_CODE
    ensures attempt <= RETRY_ATTEMPTS ==> r.submissions >= 1
    decreases if attempt <= RETRY_ATTEMPTS then RETRY_ATTEMPTS - attempt + 1 else 0
  {
    if attempt > RETRY_ATTEMPTS then
      SendRun(Err(ApiError(FinalMessage(lastError), 500, WEBHOOK_ERROR_CODE)), 0, [])
    else
      match results(attempt)
      case Ok(w) => SendRun(Ok(w), 1, [])
      case Err(m) => Resume(SendFrom(results, attempt + 1, Some(m)), 1, WaitAfter(attempt))
  }

  /** The retry pause after failed attempt `attempt`: none after the last one. */
  function WaitAfter(attempt: int): seq<int> {
    if attempt < RETRY_ATTEMPTS then [RETRY_DELAY * attempt] else []
  }

  /** A run that continues `rest` after `n` POSTs and the waits `w` already made. */
  function Resume(rest: SendRun, n: nat, w: seq<int>): SendRun {
    SendRun(rest.result, rest.submissions + n, w + rest.waits)
  }

  /** An answer at attempt `attempt` ends the loop there, after one more POST and no more waits. */
  lemma ResumeAnswered(results: int -> Result<WebhookResponse, string>, attempt: int, lastError: Option<string>, n: nat, w: seq<int>)
    requires 1 <= attempt <= RETRY_ATTEMPTS && results(attempt).Ok?
    ensures Resume(SendFrom(results, attempt, lastError), n, w) == SendRun(Ok(results(attempt).value), n + 1, w)
  {
    assert w + [] == w;
  }

  /** A failure at attempt `attempt` moves on to the next attempt, after one more POST and that attempt's wait. */
  lemma ResumeFailed(results: int -> Result<WebhookResponse, string>, attempt: int, lastError: Option<string>, n: nat, w: seq<int>)
    requires 1 <= attempt <= RETRY_ATTEMPTS && results(attempt).Err?
    ensures Resume(SendFrom(results, attempt, lastError), n, w)
            == Resume(SendFrom(results, attempt + 1, Some(results(attempt).error)), n + 1, w + WaitAfter(attempt))
  {
    var rest := SendFrom(results, attempt + 1, Some(results(attempt).error));
    assert (w + WaitAfter(attempt)) + rest.waits == w + (WaitAfter(attempt) + rest.waits);
  }

  /** `sendMessage` as a whole. */
  function Send(attempts: int -> Attempt): (r: SendRun)
    ensures r.result.Err? ==> r.result.error.status == 500 && r.result.error.code == WEBHOOK_ERROR_CODE
    ensures r.submissions >= 1
  {
    SendFrom(ResultsOf(attempts), 1, None)
  }

  function Backoff(from: int, count: nat): (w: seq<int>)
    ensures |w| == count && forall i :: 0 <= i < count ==> w[i] == RETRY_DELAY * (from + i)
  {
    seq(count, i => RETRY_DELAY * (from + i))
  }

  // -------------------------------------------------------------- properties

  /**
   * From attempt `attempt` on, the submissions are one per attempt up to the
   * third, and the waits between them are `RETRY_DELAY * k` after each
   * failed attempt k but the last.
   */
  lemma {:induction false} SubmissionsAndWaits(results: int -> Result<WebhookResponse, string>, attempt: int, lastError: Option<string>)
    requires 1 <= attempt <= RETRY_ATTEMPTS
    ensures var r := SendFrom(results, attempt, lastError);
            && 1 <= r.submissions <= RETRY_ATTEMPTS - attempt + 1
            && r.waits == Backoff(attempt, r.submissions - 1)
    decreases RETRY_ATTEMPTS - attempt
  {
    if results(attempt).Err? && attempt < RETRY_ATTEMPTS {
      var m := results(attempt).error;
      SubmissionsAndWaits(results, attempt + 1, Some(m));
      var rest := SendFrom(results, attempt + 1, Some(m));
      var r := SendFrom(results, attempt, lastError);
      assert r.waits == [RETRY_DELAY * attempt] + rest.waits;
      assert r.waits == Backoff(attempt, r.submissions - 1);
    }
  }

  /** One to three POSTs are made; the waits are 1000 ms, then 2000 ms, and none follows the last POST. */
  lemma AtMostThreeSubmissions(attempts: int -> Attempt)
    ensures 1 <= Send(attempts).submissions <= 3
    ensures Send(attempts).waits == [1000, 2000][..Send(attempts).submissions - 1]
  {
    SubmissionsAndWaits(ResultsOf(attempts), 1, None);
  }

  /**
   * The answer is that of the first attempt that got one, after as many POSTs
   * as attempts up to it; every earlier attempt failed.
   */
  lemma {:induction false} FirstAnswerReturned(results: int -> Result<WebhookResponse, string>, attempt: int, lastError: Option<string>)
    requires 1 <= attempt
    ensures var r := SendFrom(results, attempt, lastError);
            r.result.Ok? ==>
              && r.submissions >= 1
              && results(attempt + r.submissions - 1) == Ok(r.result.value)
              && forall j :: attempt <= j < attempt + r.submissions - 1 ==> results(j).Err?
    decreases if attempt <= RETRY_ATTEMPTS then RETRY_ATTEMPTS - attempt + 1 else 0
  {
    if attempt <= RETRY_ATTEMPTS && results(attempt).Err? {
      FirstAnswerReturned(results, attempt + 1, Some(results(attempt).error));
    }
  }

  /** When all three attempts fail, the thrown `ApiError` carries the third failure's message (or the fallback when it is empty). */
  lemma AllFailedGivesApiError(attempts: int -> Attempt)
    requires forall k :: 1 <= k <= 3 ==> AttemptResult(attempts(k)).Err?
    ensures var m := AttemptResult(attempts(3)).error;
            Send(attempts) == SendRun(Err(ApiError(if m == "" then CONNECT_ERROR else m, 500, WEBHOOK_ERROR_CODE)), 3, [1000, 2000])
  {
    var results := ResultsOf(attempts);
    assert results(1).Err? && results(2).Err? && results(3).Err?;
  }

  /** A POST that is accepted but whose poll fails is followed by a fresh POST, unless it was the third. */
  lemma FailedPollResubmits(attempts: int -> Attempt)
    requires attempts(1).post.PostAnswered? && IsOk(attempts(1).post.status)
    requires PollOutcomeOf(attempts(1)).Failed?
    ensures Send(attempts).submissions >= 2
  {
    var results := ResultsOf(attempts);
    assert results(1).Err?;
    SubmissionsAndWaits(results, 2, Some(results(1).error));
  }

  /** The poller's map after a step: the same, or the same without the session `id`. */
  ghost predicate KeptOrDropped(before: map<string, PollHandle>, after: map<string, PollHandle>, id: string) {
    after == before || after == before - {id}
  }

  /** Two such steps in a row are again one: dropping the session twice drops it once. */
  lemma KeptOrDroppedTrans(a: map<string, PollHandle>, b: map<string, PollHandle>, c: map<string, PollHandle>, id: string)
    requires KeptOrDropped(a, b, id) && KeptOrDropped(b, c, id)
    ensures KeptOrDropped(a, c, id)
  {
    assert (a - {id}) - {id} == a - {id};
  }

  /** `WebhookService`: the chat's session id and the shared poller it waits on. */
  class WebhookService {
    var sessionId: string
    const poller: ResponsePoller

    /** `generateSessionId()` reads the clock and `Math.random`; the fresh id is a parameter. */
    constructor (freshId: string, poller: ResponsePoller)
      ensures sessionId == freshId && this.poller == poller
    {
      sessionId := freshId;
      this.poller := poller;
    }

    /**
     * One attempt's `try` (lines 29-64): the POST, then, when it is accepted,
     * the poll for the session; the answer, or the message of what it throws.
     */
    method Submit(a: Attempt) returns (r: Result<WebhookResponse, string>)
      modifies poller
      ensures r == AttemptResult(a)
      ensures KeptOrDropped(old(poller.activePolls), poller.activePolls, sessionId)
    {
      match a.post {
        case PostFailed(m) =>
          r := Err(m);
        case PostAnswered(status, statusText) =>
          if !IsOk(status) {
            r := Err(HttpErrorMessage(status, statusText));
          } else {
            var outcome, fetches := poller.PollForResponse(sessionId, POLL_SETTINGS, a.pollStart, a.probe);
            if outcome.Delivered? {
              r := Ok(outcome.response);
            } else {
              r := Err(PollFailureMessage(outcome.message));
            }
          }
      }
    }

    /**
     * `sendMessage(message, userId)` at instant `now`. Every POST carries the
     * same request; each poll leaves the session out of the poller's map.
     */
    method SendMessage(message: string, userId: Option<string>, now: int, attempts: int -> Attempt)
      returns (result: Result<WebhookResponse, ApiError>, request: WebhookRequest, submissions: nat, waits: seq<int>)
      modifies poller
      ensures request == RequestData(message, userId, sessionId, now)
      ensures SendRun(result, submissions, waits) == Send(attempts)
      ensures KeptOrDropped(old(poller.activePolls), poller.activePolls, sessionId)
    {
      var run := Retry(attempts);
      result, submissions, waits := run.result, run.submissions, run.waits;
      request := RequestData(message, userId, sessionId, now);
    }

    /** The retry loop of lines 28-87: at most `RETRY_ATTEMPTS` attempts, a back-off pause after each failed one but the last. */
    method Retry(attempts: int -> Attempt) returns (run: SendRun)
      modifies poller
      ensures run == Send(attempts)
      ensures KeptOrDropped(old(poller.activePolls), poller.activePolls, sessionId)
    {
      ghost var results := ResultsOf(attempts);
      var lastError: Option<string> := None;
      var submissions: nat, waits: seq<int> := 0, [];
      var attempt := 1;
      while attempt <= RETRY_ATTEMPTS
        invariant 1 <= attempt <= RETRY_ATTEMPTS + 1 && submissions == attempt - 1
        invariant Send(attempts) == Resume(SendFrom(results, attempt, lastError), submissions, waits)
        invariant KeptOrDropped(old(poller.activePolls), poller.activePolls, sessionId)
      {
        ghost var before := poller.activePolls;
        var r := Submit(attempts(attempt));
        KeptOrDroppedTrans(old(poller.activePolls), before, poller.activePolls, sessionId);
        assert r == results(attempt);
        if r.Ok? {
          ResumeAnswered(results, attempt, lastError, submissions, waits);
          return SendRun(Ok(r.value), submissions + 1, waits);
        }
        ResumeFailed(results, attempt, lastError, submissions, waits);
        submissions := submissions + 1;
        lastError := Some(r.error);
        waits := waits + WaitAfter(attempt);
        attempt := attempt + 1;
      }
      run := SendRun(Err(ApiError(FinalMessage(lastError), 500, WEBHOOK_ERROR_CODE)), submissions, waits);
    }

    /** `resetSession()`: cancel the old session's poll, then switch to a fresh id. */
    method ResetSession(freshId: string)
      modifies this, poller, poller.activePolls.Values
      ensures sessionId == freshId
      ensures poller.activePolls == old(poller.activePolls) - {old(sessionId)}
      ensures old(sessionId) in old(poller.activePolls) ==> old(poller.activePolls)[old(sessionId)].aborted
      ensures forall h :: h in old(poller.activePolls).Values
                          && !(old(sessionId) in old(poller.activePolls) && h == old(poller.activePolls)[old(sessionId)])
                          ==> h.aborted == old(h.aborted)
    {
      var found := poller.CancelPolling(sessionId);
      sessionId := freshId;
    }

    /** `cancelPendingOperations()`: cancel the current session's poll; the id stays. */
    method CancelPendingOperations()
      modifies poller, poller.activePolls.Values
      ensures sessionId == old(sessionId)
      ensures poller.activePolls == old(poller.activePolls) - {sessionId}
      ensures sessionId in old(poller.activePolls) ==> old(poller.activePolls)[sessionId].aborted
      ensures forall h :: h in old(poller.activePolls).Values
                          && !(sessionId in old(poller.activePolls) && h == old(poller.activePolls)[sessionId])
                          ==> h.aborted == old(h.aborted)
    {
      var found := poller.CancelPolling(sessionId);
    }
  }
}
