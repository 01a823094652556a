/**
 * The configuration constants of lib/constants.ts and the message records of
 * types/chat.ts that the dispatch and polling layers exchange.
 */
module ChatTypes {
  import Js

  /** `WEBHOOK_CONFIG.RETRY_ATTEMPTS`: submissions made before giving up. */
  const RETRY_ATTEMPTS: int := 3
  /** `WEBHOOK_CONFIG.RETRY_DELAY`: the backoff unit, in milliseconds. */
  const RETRY_DELAY: int := 1000

  /**
   * `WebhookResponse`: the answer handed back to the chat. The poller copies the
   * four fields from the JSON it receives without checking their types, so they
   * are kept as JavaScript values.
   */
  datatype WebhookResponse = WebhookResponse(response: Js.Value, success: Js.Value, error: Js.Value, data: Js.Value)

  /** `WebhookRequest`: what one submission to the workflow engine carries (`timestamp` in milliseconds). */
  datatype WebhookRequest = WebhookRequest(message: string, userId: string, sessionId: string, timestamp: int)

  /** `ApiError`: the error object `sendMessage` throws after its last attempt. */
  datatype ApiError = ApiError(message: string, status: int, code: string)
}
