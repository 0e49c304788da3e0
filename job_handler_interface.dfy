/** The option records, defaults and enumerations shared by the job handlers. */
module JobHandlerInterface {
  import opened Wrappers
  import opened JsValues

  /** `DEFAULT_RETRY_OPTION`. */
  const DefaultInitialDelayTime: int := 1000 * 5
  const DefaultMaxRetries: int := 5
  const DefaultExchangeType: string := "direct"

  /** `RETRY_ADDITIONAL_QUEUE_TYPES`. */
  const Retry: string := "retry"
  const Requeue: string := "requeue"
  const Error: string := "error"

  /** `DEFAULT_TTL_QUEUES.ERROR`: one month, in milliseconds. */
  const ErrorQueueTtl: int := 1000 * 60 * 60 * 24 * 30

  /**
   * The retry options a caller may pass. The retry limit is spelled
   * `maxRetires` here, as in the source interface.
   */
  datatype RetryOptionInput = RetryOptionInput(
    initialDelayTime: Option<int>,
    maxRetires: Option<int>,
    exchangeType: Option<string>,
    prefixQueueName: Option<string>,
    routingKey: Option<string>)

  const NoRetryOptions := RetryOptionInput(None, None, None, None, None)

  /**
   * The handler's option object after `Object.assign({}, DEFAULT_RETRY_OPTION, option)`:
   * the default keys `initialDelayTime`, `maxRetries`, `exchangeType` and the
   * caller's keys laid over them.
   */
  datatype RetryOption = RetryOption(
    initialDelayTime: int,
    maxRetries: int,
    exchangeType: string,
    maxRetires: Option<int>,
    prefixQueueName: Option<string>,
    routingKey: Option<string>)

  /** The metadata object passed as the callback's second argument. */
  datatype Meta = NoMeta | RetryMeta(retryCount: int)

  /** What the user callback did: returned a value or threw an error. */
  datatype CallbackResult = Returned(value: Json) | Threw(error: JsError)
}
