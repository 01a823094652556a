/**
 * The browser-side polling client lib/responsePoller.ts: up to `maxAttempts`
 * GETs of the callback endpoint, with a wall-clock timeout, cooperative
 * cancellation through an abort flag, retry on 5xx and on "no response yet",
 * and a map of the polls in flight.
 *
 * The outside world is an input: `probe(k)` says, for attempt k, what the
 * clock reads and whether the poll's abort signal is set when the attempt
 * starts, and what its fetch yields. A cancellation that happens while a poll
 * runs shows up as `aborted` in the probes of the attempts after it.
 */
module Poller {
  import opened Outcomes
  import opened Js
  import Text
  import opened ChatTypes

  /** `PollingConfig`, in milliseconds and attempts. */
  datatype PollingConfig = PollingConfig(interval: int, maxAttempts: int, timeout: int)

  /** `Partial<PollingConfig>`: the fields a caller chose to set. */
  datatype PartialConfig = PartialConfig(interval: Option<int>, maxAttempts: Option<int>, timeout: Option<int>)

  const DEFAULT_CONFIG: PollingConfig := PollingConfig(1000, 30, 30000)

  const TIMEOUT_MESSAGE: string := "Timeout: No se recibió respuesta en el tiempo esperado"
  const CANCELLED_MESSAGE: string := "Polling cancelado"
  /** The TypeError of reading `hasResponse` from a JSON `null`. */
  const NULL_READ_MESSAGE: string := "Cannot read properties of null (reading 'hasResponse')"

  /** `{ ...DEFAULT_CONFIG, ...config }`: each field set by the caller wins. */
  function Merge(defaults: PollingConfig, config: PartialConfig): (c: PollingConfig)
    ensures c.interval == (if config.interval.Some? then config.interval.value else defaults.interval)
    ensures c.maxAttempts == (if config.maxAttempts.Some? then config.maxAttempts.value else defaults.maxAttempts)
    ensures c.timeout == (if config.timeout.Some? then config.timeout.value else defaults.timeout)
  {
    PollingConfig(config.interval.GetOr(defaults.interval),
                  config.maxAttempts.GetOr(defaults.maxAttempts),
                  config.timeout.GetOr(defaults.timeout))
  }

  /** The text of the error thrown once every attempt has passed without an answer. */
  function ExhaustedMessage(maxAttempts: int): string {
    "No se recibió respuesta después de " + Text.ShowInt(maxAttempts) + " intentos"
  }

  /** The text of the error thrown for a non-5xx failure status. */
  function HttpErrorMessage(status: int, statusText: string): string {
    "HTTP " + Text.ShowInt(status) + ": " + statusText
  }

  /** What one GET yields: a response (whose JSON body may fail to parse), or a rejected fetch. */
  datatype FetchOutcome =
    | Answered(status: int, statusText: string, body: Result<Value, string>)
    | NetworkError(message: string)

  /** The world as attempt k sees it. */
  datatype Probe = Probe(clock: int, aborted: bool, fetch: FetchOutcome)

  /** How one attempt's fetch ends: wait and go on, hand back an answer, or throw. */
  datatype Step = Continue | Deliver(response: WebhookResponse) | Fail(message: string)

  /** How a poll ends, and how many fetches it issued. */
  datatype PollOutcome = Delivered(response: WebhookResponse) | Failed(message: string)
  datatype PollRun = PollRun(outcome: PollOutcome, fetches: nat)

  predicate IsOk(status: int) {
    200 <= status <= 299
  }

  /** The body of the inner `try` (lines 44-87) as a function of what the fetch yields. */
  function AttemptStep(f: FetchOutcome): (s: Step)
    ensures f.Answered? && !IsOk(f.status) && f.status >= 500 ==> s == Continue
    ensures f.Answered? && !IsOk(f.status) && f.status < 500 ==> s == Fail(HttpErrorMessage(f.status, f.statusText))
    ensures s.Deliver? ==> f.Answered? && IsOk(f.status) && f.body.Ok? && Truthy(Get(f.body.value, "hasResponse"))
    ensures f.NetworkError? ==> s == Fail(f.message)
    ensures f.Answered? && IsOk(f.status) && f.body.Err? ==> s == Fail(f.body.error)
    ensures f.Answered? && IsOk(f.status) && f.body.Ok? && IsNullish(f.body.value) ==> s == Fail(NULL_READ_MESSAGE)
    ensures f.Answered? && IsOk(f.status) && f.body.Ok? && !IsNullish(f.body.value) ==>
              var d := f.body.value;
              && (!Truthy(Get(d, "hasResponse")) ==> s == Continue)
              && (Truthy(Get(d, "hasResponse")) ==>
                    s == Deliver(WebhookResponse(Get(d, "response"), Get(d, "success"), Get(d, "error"), Get(d, "data"))))
  {
    match f
    case NetworkError(m) => Fail(m)
    case Answered(status, statusText, body) =>
      if !IsOk(status) then
        if status >= 500 then Continue else Fail(HttpErrorMessage(status, statusText))
      else
        match body
        case Err(m) => Fail(m)
        case Ok(data) =>
          if IsNullish(data) then Fail(NULL_READ_MESSAGE)
          else if !Truthy(Get(data, "hasResponse")) then Continue
          else Deliver(WebhookResponse(Get(data, "response"), Get(data, "success"), Get(data, "error"), Get(data, "data")))
  }

  function AddFetches(r: PollRun, n: nat): PollRun {
    r.(fetches := r.fetches + n)
  }

  /**
   * The poll from attempt `attempt` on, as the loop of lines 33-102 runs it:
   * the timeout check, then the abort check, then one fetch. Errors thrown by
   * the fetch step are swallowed except on the last attempt.
   */
  function PollFrom(cfg: PollingConfig, start: int, probe: int -> Probe, attempt: int): (r: PollRun)
    ensures r.outcome.Delivered? ==> r.fetches >= 1
    decreases if attempt <= cfg.maxAttempts then cfg.maxAttempts - attempt + 1 else 0
  {
    if attempt > cfg.maxAttempts then PollRun(Failed(ExhaustedMessage(cfg.maxAttempts)), 0)
    else
      var p := probe(attempt);
      if p.clock - start > cfg.timeout then PollRun(Failed(TIMEOUT_MESSAGE), 0)
      else if p.aborted then PollRun(Failed(CANCELLED_MESSAGE), 0)
      else
        match AttemptStep(p.fetch)
        case Deliver(w) => PollRun(Delivered(w), 1)
        case Continue => AddFetches(PollFrom(cfg, start, probe, attempt + 1), 1)
        case Fail(m) =>
          if attempt == cfg.maxAttempts then PollRun(Failed(m), 1)
          else AddFetches(PollFrom(cfg, start, probe, attempt + 1), 1)
  }

  /** Attempt k starts: neither timed out nor aborted at its top. */
  predicate Started(cfg: PollingConfig, start: int, probe: int -> Probe, k: int) {
    probe(k).clock - start <= cfg.timeout && !probe(k).aborted
  }

  // -------------------------------------------------------------- properties

  /** One invocation issues at most `maxAttempts` fetches, and none when `maxAttempts` is not positive. */
  lemma {:induction false} FetchBound(cfg: PollingConfig, start: int, probe: int -> Probe, attempt: int)
    requires attempt >= 1
    ensures PollFrom(cfg, start, probe, attempt).fetches <= if cfg.maxAttempts >= attempt then cfg.maxAttempts - attempt + 1 else 0
    decreases if attempt <= cfg.maxAttempts then cfg.maxAttempts - attempt + 1 else 0
  {
    if attempt <= cfg.maxAttempts {
      FetchBound(cfg, start, probe, attempt + 1);
    }
  }

  /**
   * The fetches are those of attempts `attempt`, `attempt + 1`, ... in turn:
   * an answer is what the last of them delivered, and none of the earlier ones
   * delivered anything, so no fetch follows the first answer.
   */
  lemma {:induction false} DeliveredByLastFetch(cfg: PollingConfig, start: int, probe: int -> Probe, attempt: int)
    requires PollFrom(cfg, start, probe, attempt).outcome.Delivered?
    ensures var r := PollFrom(cfg, start, probe, attempt);
            && r.fetches >= 1
            && AttemptStep(probe(attempt + r.fetches - 1).fetch) == Deliver(r.outcome.response)
            && forall j :: attempt <= j < attempt + r.fetches - 1 ==> !AttemptStep(probe(j).fetch).Deliver?
    decreases if attempt <= cfg.maxAttempts then cfg.maxAttempts - attempt + 1 else 0
  {
    var p := probe(attempt);
    if !AttemptStep(p.fetch).Deliver? {
      DeliveredByLastFetch(cfg, start, probe, attempt + 1);
    }
  }

  /**
   * The converse: when attempt k is the first started attempt whose fetch
   * delivers, the poll hands back that answer after one fetch per attempt up
   * to k, and issues no fetch after it.
   */
  lemma {:induction false} FirstAnswerDelivered(cfg: PollingConfig, start: int, probe: int -> Probe, attempt: int, k: int, w: WebhookResponse)
    requires 1 <= attempt <= k <= cfg.maxAttempts
    requires forall j :: attempt <= j < k ==> Started(cfg, start, probe, j) && !AttemptStep(probe(j).fetch).Deliver?
    requires Started(cfg, start, probe, k) && AttemptStep(probe(k).fetch) == Deliver(w)
    ensures PollFrom(cfg, start, probe, attempt) == PollRun(Delivered(w), k - attempt + 1)
    decreases k - attempt
  {
    if attempt < k {
      FirstAnswerDelivered(cfg, start, probe, attempt + 1, k, w);
    }
  }

  /** Once the abort flag is seen set at the top of attempt k, no fetch of attempt k or later is issued. */
  lemma {:induction false} NoFetchAfterAbort(cfg: PollingConfig, start: int, probe: int -> Probe, attempt: int, k: int)
    requires attempt <= k && probe(k).aborted
    ensures PollFrom(cfg, start, probe, attempt).fetches <= k - attempt
    decreases if attempt <= cfg.maxAttempts then cfg.maxAttempts - attempt + 1 else 0
  {
    if attempt <= cfg.maxAttempts && attempt < k {
      NoFetchAfterAbort(cfg, start, probe, attempt + 1, k);
    }
  }

  /** Every attempt starts and is told "not yet" (a 5xx or `hasResponse` false): the loop runs out. */
  ghost predicate NeverAnswered(cfg: PollingConfig, start: int, probe: int -> Probe, attempt: int) {
    forall k :: attempt <= k <= cfg.maxAttempts ==> Started(cfg, start, probe, k) && AttemptStep(probe(k).fetch) == Continue
  }

  /** With no answer on any attempt, the poll makes all its fetches and then reports exhaustion. */
  lemma {:induction false} ExhaustsWhenNeverAnswered(cfg: PollingConfig, start: int, probe: int -> Probe, attempt: int)
    requires 1 <= attempt <= cfg.maxAttempts + 1
    requires NeverAnswered(cfg, start, probe, attempt)
    ensures PollFrom(cfg, start, probe, attempt) == PollRun(Failed(ExhaustedMessage(cfg.maxAttempts)), cfg.maxAttempts - attempt + 1)
    decreases cfg.maxAttempts - attempt + 1
  {
    if attempt <= cfg.maxAttempts {
      ExhaustsWhenNeverAnswered(cfg, start, probe, attempt + 1);
    }
  }

  /**
   * A thrown step (a 4xx, a network error, an abort of the fetch) is swallowed
   * before the last attempt and the loop goes on; on the last attempt it ends
   * the poll with that error.
   */
  lemma ThrownStepRetriedUnlessLast(cfg: PollingConfig, start: int, probe: int -> Probe, attempt: int, m: string)
    requires 1 <= attempt <= cfg.maxAttempts && Started(cfg, start, probe, attempt)
    requires AttemptStep(probe(attempt).fetch) == Fail(m)
    ensures attempt < cfg.maxAttempts ==>
              PollFrom(cfg, start, probe, attempt) == AddFetches(PollFrom(cfg, start, probe, attempt + 1), 1)
    ensures attempt == cfg.maxAttempts ==> PollFrom(cfg, start, probe, attempt) == PollRun(Failed(m), 1)
  {
  }

  /** The timeout check comes first: an attempt that is both late and aborted reports the timeout. */
  lemma TimeoutCheckedBeforeAbort(cfg: PollingConfig, start: int, probe: int -> Probe, attempt: int)
    requires 1 <= attempt <= cfg.maxAttempts
    requires probe(attempt).clock - start > cfg.timeout && probe(attempt).aborted
    ensures PollFrom(cfg, start, probe, attempt) == PollRun(Failed(TIMEOUT_MESSAGE), 0)
  {
  }

  /** A 404 on the first attempt is retried: an answer on the second attempt is delivered. */
  lemma ClientErrorRetried(start: int, answer: map<string, Value>)
    requires "hasResponse" in answer && answer["hasResponse"] == Bool(true)
    ensures var probe := (k: int) =>
              if k == 1 then Probe(start, false, Answered(404, "Not Found", Ok(Null)))
              else Probe(start + 1000, false, Answered(200, "OK", Ok(Obj(answer))));
            PollFrom(DEFAULT_CONFIG, start, probe, 1).outcome.Delivered?
            && PollFrom(DEFAULT_CONFIG, start, probe, 1).fetches == 2
  {
    var probe := (k: int) =>
      if k == 1 then Probe(start, false, Answered(404, "Not Found", Ok(Null)))
      else Probe(start + 1000, false, Answered(200, "OK", Ok(Obj(answer))));
    assert AttemptStep(probe(2).fetch).Deliver?;
    assert PollFrom(DEFAULT_CONFIG, start, probe, 2) == PollRun(Delivered(AttemptStep(probe(2).fetch).response), 1);
  }

  /**
   * The loop of `pollForResponse` (lines 33-102), between registering the
   * poll and its `finally`. `fetches` counts the GETs issued.
   */
  method RunPoll(cfg: PollingConfig, start: int, probe: int -> Probe) returns (outcome: PollOutcome, fetches: nat)
    ensures PollRun(outcome, fetches) == PollFrom(cfg, start, probe, 1)
  {
    fetches := 0;
    var attempt := 1;
    while attempt <= cfg.maxAttempts
      invariant attempt >= 1 && fetches == attempt - 1
      invariant PollFrom(cfg, start, probe, 1) == AddFetches(PollFrom(cfg, start, probe, attempt), fetches)
      decreases cfg.maxAttempts - attempt
    {
      var p := probe(attempt);
      if p.clock - start > cfg.timeout {
        return Failed(TIMEOUT_MESSAGE), fetches;
      }
      if p.aborted {
        return Failed(CANCELLED_MESSAGE), fetches;
      }
      fetches := fetches + 1;
      var thrown: Option<string> := None;
      match p.fetch {
        case NetworkError(m) =>
          thrown := Some(m);
        case Answered(status, statusText, body) =>
          if !IsOk(status) {
            if status >= 500 {
              attempt := attempt + 1;
              continue;
            }
            thrown := Some(HttpErrorMessage(status, statusText));
          } else if body.Err? {
            thrown := Some(body.error);
          } else if IsNullish(body.value) {
            thrown := Some(NULL_READ_MESSAGE);
          } else if !Truthy(Get(body.value, "hasResponse")) {
            attempt := attempt + 1;
            continue;
          } else {
            var data := body.value;
            return Delivered(WebhookResponse(Get(data, "response"), Get(data, "success"), Get(data, "error"), Get(data, "data"))), fetches;
          }
      }
      if attempt == cfg.maxAttempts {
        return Failed(thrown.value), fetches;
      }
      attempt := attempt + 1;
    }
    outcome := Failed(ExhaustedMessage(cfg.maxAttempts));
  }

  /** An `AbortController` as the poll map holds it, with the instant the poll started. */
  class PollHandle {
    var aborted: bool
    const startTime: int

    constructor (startTime: int)
      ensures !aborted && this.startTime == startTime
    {
      aborted := false;
      this.startTime := startTime;
    }

    /** `controller.abort()`. */
    method Abort()
      modifies this
      ensures aborted
    {
      aborted := true;
    }
  }

  /** `ResponsePoller`: the polls in flight, keyed by session id. */
  class ResponsePoller {
    var activePolls: map<string, PollHandle>

    constructor ()
      ensures activePolls == map[]
    {
      activePolls := map[];
    }

    /** Line 30: register a new poll, replacing (without aborting) any entry the session had. */
    method Register(sessionId: string, start: int) returns (handle: PollHandle)
      modifies this
      ensures fresh(handle) && !handle.aborted && handle.startTime == start
      ensures activePolls == old(activePolls)[sessionId := handle]
    {
      handle := new PollHandle(start);
      activePolls := activePolls[sessionId := handle];
    }

    /** Lines 104-107, the `finally`: drop the session's entry, whichever poll it belongs to. */
    method Unregister(sessionId: string)
      modifies this
      ensures activePolls == old(activePolls) - {sessionId}
    {
      activePolls := activePolls - {sessionId};
    }

    /**
     * `pollForResponse(sessionId, config)` started at instant `start`: the
     * caller's settings over the defaults, the attempt loop, and the entry in
     * `activePolls` that lives exactly as long as the loop.
     */
    method PollForResponse(sessionId: string, config: PartialConfig, start: int, probe: int -> Probe)
      returns (outcome: PollOutcome, fetches: nat)
      modifies this
      ensures PollRun(outcome, fetches) == PollFrom(Merge(DEFAULT_CONFIG, config), start, probe, 1)
      ensures activePolls == old(activePolls) - {sessionId}
    {
      var cfg := Merge(DEFAULT_CONFIG, config);
      var handle := Register(sessionId, start);
      outcome, fetches := RunPoll(cfg, start, probe);
      Unregister(sessionId);
    }

    /** `cancelPolling(sessionId)`: abort and forget the session's poll, reporting whether there was one. */
    method CancelPolling(sessionId: string) returns (found: bool)
      modifies this, activePolls.Values
      ensures found <==> sessionId in old(activePolls)
      ensures found ==> old(activePolls)[sessionId].aborted
      ensures activePolls == old(activePolls) - {sessionId}
      ensures forall h :: h in old(activePolls).Values && !(found && h == old(activePolls)[sessionId]) ==> h.aborted == old(h.aborted)
    {
      if sessionId in activePolls {
        var handle := activePolls[sessionId];
        handle.Abort();
        activePolls := activePolls - {sessionId};
        found := true;
      } else {
        found := false;
      }
    }

    /** `cancelAllPolling()`: abort every poll in flight, then empty the map. */
    method CancelAllPolling()
      modifies this, activePolls.Values
      ensures activePolls == map[]
      ensures forall h :: h in old(activePolls).Values ==> h.aborted
    {
      var remaining := activePolls.Keys;
      while remaining != {}
        invariant remaining <= activePolls.Keys
        invariant activePolls == old(activePolls)
        invariant forall s :: s in activePolls && s !in remaining ==> activePolls[s].aborted
        decreases remaining
      {
        var s :| s in remaining;
        activePolls[s].Abort();
        remaining := remaining - {s};
      }
      activePolls := map[];
    }
  }

  /**
   * A second poll for a session does not cancel the first: the first keeps its
   * unaborted controller and drops out of the map, and a cancel then reaches
   * only the second.
   */
  method SecondPollSupersedes(sessionId: string) returns (firstAborted: bool, secondAborted: bool, found: bool)
    ensures !firstAborted && secondAborted && found
  {
    var poller := new ResponsePoller();
    var first := poller.Register(sessionId, 0);
    var second := poller.Register(sessionId, 500);
    found := poller.CancelPolling(sessionId);
    firstAborted, secondAborted := first.aborted, second.aborted;
  }
}
