# rabi job handlers in Dafny

rabi is a small TypeScript library over RabbitMQ (amqplib). It offers
publish/subscribe on fanout exchanges and job queues with a pluggable handler
strategy. This project models the core of that library:

- the **retry strategy** (`WithRetryHandler`). A redelivery count y is read
  from the broker's `x-death` header. It is decoded into a retry round through
  y = 2x² − 2x + 1 with the quadratic helpers. A count that falls between two
  round boundaries is bounced through the retry queue again, without calling
  the callback. At a boundary the callback runs, and its outcome decides
  between an ack, another bounce, or an ack plus a record in the error queue.
- the **one-shot strategy** (`OneShotHandler`): call once and ack unless
  `noAck`, whatever happened.
- the **base handler** lifecycle (`JobHandler`): "initialize before run", body
  parsing, and the dotted auxiliary names.
- the plain **`QueueHandler`**: ack on success, reject with requeue on failure.
- the **`Rabbit` facade**: the prefixed names, the declarations made by
  publish, subscribe, addJob and processJob, and the choice of handler.
- **`safeParseJSON`**, the **`JobHandlerException`** message default, and the
  constants of `JobHandlerInterface`.

The broker channel is a class whose `log` records every operation issued on it
(assertQueue, assertExchange, bindQueue, consume, ack, reject, sendToQueue,
publish), in order. Calls of the user's callback and of `onError` go into the
same trace. Ordering statements such as "onError runs after the disposition"
are therefore statements about the log. Every handler method states its new
log as the old log followed by an *effects function* of its inputs.
Dispositions (acks and rejects), invocations and error reports are counted on
those functions, and the lemmas beside them prove the properties.

Points where the model follows the code:

- **Round of a count of 0.** `_findRetryTime(0)` returns 0, so a fresh
  delivery is called back with `retry_count: 0`, not round 1. The first real
  retry (count 1) is then called at round 1.
- **Two dead-letter exchange names.** The facade declares a primary queue
  with dead-letter exchange `${q}.retry` (dot). The retry handler declares the
  same queue with `${q}-retry` (hyphen), and its retry, requeue and error
  names all use the hyphen. The model keeps both as written, and
  `Facade.DeadLetterExchangesDisagree` states the mismatch.
- **The retry limit key.** The options are merged with
  `Object.assign({}, DEFAULT_RETRY_OPTION, option)`. The caller's key is
  `maxRetires`, so the default's `maxRetries` stays 5. The limit in force is
  `maxRetires || maxRetries`.
  A caller option is modelled as absent or present with a value; a key that
  is present with the value `undefined` is read as absent (see "## Left out").
- **`Math.sqrt`.** `findX` returns a real number. The model returns its floor,
  built on an exact integer square root. `_needDelayMore` tests the real value
  (`retryTime <= 0`), then takes its integer part (`parseInt`); `isXInteger`
  takes the integer part only. `handle` uses the real value directly for the
  `retry_count` handed to the callback and for `retryTime < maxRetries`. The
  test agrees with the floor because the real root is at least 1 whenever the
  count is at least 1. The other two are reached only when the delivery is not
  delayed, and then the root is an exact integer
  (`WithRetry.InvokedRoundIsExact`), equal to its floor.
- **Name clashes.** A `prefixQueueName` can make the retry or error name equal
  the primary queue's name. `WithRetry.RetryTopologyClosesLoop` therefore
  requires those names to differ. Without a prefix they always differ
  (`WithRetry.SpecifiedNamesDistinct`).

`createQueueName` and `createExchangeName` are the same function in the
source (`${name}.${type}`). Both are modelled, with the same contract.

JSON.parse is a parameter of type `string -> Option<Json>` (None where it
throws). JSON.stringify is a parameter `Json -> string`. The user's callback is
represented by its outcome on the delivery (`Returned(value)` or
`Threw(error)`), and "an `onError` was supplied" by a boolean.

## Model

| member | source | states |
|---|---|---|
| QuadraticRoot.ISqrt | src/helpers/QuadraticRoot.ts:11 | the integer square root: r² ≤ n < (r+1)², the exact floor of `Math.sqrt(n)` |
| QuadraticRoot.FindX | src/helpers/QuadraticRoot.ts:2-29 | `findX(2, -2, c)` is null exactly when the discriminant b² − 4ac is negative |
| QuadraticRoot.FindXIsFloorOfLargerRoot | src/helpers/QuadraticRoot.ts:7-25 | the value returned is the floor of the larger real root of 2x² − 2x + c = 0 (max of both roots), stated in integers |
| QuadraticRoot.DiscriminantNeverZero | src/helpers/QuadraticRoot.ts:7-26 | for a = 2, b = −2 the discriminant is 4 − 8c and never 0, so the equal-roots branch cannot be taken |
| QuadraticRoot.FindXDefinedIff | src/helpers/QuadraticRoot.ts:7-28 | `findX(2, -2, 1 - y)` is non-null exactly when y ≥ 1 |
| QuadraticRoot.RoundCountValues | src/helpers/QuadraticRoot.ts:31-35 | `findY(2, -2, 1, k)` gives the round boundaries 1, 5 and 13 for k = 1, 2, 3 |
| QuadraticRoot.FindYSumOfSquares | src/helpers/QuadraticRoot.ts:31-35 | `findY(2, -2, 1, x)` equals x² + (x − 1)², the count at which round x is reached (the derivation in src/handlers/WithRetryHandler.ts line 101) |
| QuadraticRoot.RoundCountStep | src/helpers/QuadraticRoot.ts:31-35 | consecutive round boundaries `findY(2, -2, 1, k)` and `findY(2, -2, 1, k + 1)` are 4k apart |
| QuadraticRoot.RoundCountIncreasing | src/helpers/QuadraticRoot.ts:31-35 | 2k² − 2k + 1 is strictly increasing over k ≥ 1 |
| QuadraticRoot.FloorRootIsLargestRound | src/helpers/QuadraticRoot.ts:2-35 | for y ≥ 1 the floor root k is ≥ 1, brackets y between the boundaries of rounds k and k+1, and is the largest k with boundary ≤ y |
| QuadraticRoot.FloorBracketsCount | src/helpers/QuadraticRoot.ts:2-35 | any floor of the larger root of 2x² − 2x + (1 − y) brackets y between consecutive round boundaries |
| QuadraticRoot.IsXIntegerIff | src/helpers/QuadraticRoot.ts:37-46 | `isXInteger(y)` is false when findX is null, and true exactly when y = 2k² − 2k + 1 for some k ≥ 1 |
| SafeParse.SafeParseJSON | src/helpers/safeParseJSON.ts:1-9 | null for a missing or empty string; the parsed value when JSON.parse succeeds; the string itself when it throws |
| JsValues.OrElse | src/handlers/WithRetryHandler.ts:84-91 | a string option or its fallback, as `routingKey` and `prefixQueueName` are read: the string when it is present and non-empty, else the fallback |
| JsValues.TruthyBool | src/handlers/OneShotHandler.ts:12 | `!!b` is true exactly when the option is present and true |
| Exceptions.NewJobHandlerException | src/exceptions/JobHandlerException.ts:3-7 | the message is kept when it is non-empty, and "No message." otherwise |
| JobHandlers.CreateExchangeName | src/handlers/JobHandler.ts:9-11 | the name splits into the base name, a dot and the type |
| JobHandlers.CreateQueueName | src/handlers/JobHandler.ts:13-15 | the name splits into the base name, a dot and the type |
| JobHandlers.ParseBufferToJSON | src/handlers/JobHandler.ts:55-61 | null for a missing or empty buffer, else safeParseJSON of its text |
| JobHandlers.BufferRoundTrip | src/handlers/JobHandler.ts:49-61 | parseBufferToJSON(JSONtoBuffer(x)) == x whenever JSON.parse inverts JSON.stringify on x |
| JobHandlers.UnparsableBodyKept | src/handlers/JobHandler.ts:55-61 | a non-empty body that does not parse is kept as that string |
| JobHandlers.JobHandler.Create | src/handlers/JobHandler.ts:20-22 | construction fails exactly when the channel is missing, with "Channel not found."; otherwise the handler starts uninitialized |
| JobHandlers.JobHandler.Initialize | src/handlers/JobHandler.ts:28-32 | sets the initialized flag and returns true |
| JobHandlers.JobHandler.SpecifiedName | src/handlers/JobHandler.ts:39-41 | the name splits into the queue name, a dot and the type |
| JobHandlers.JobHandler.Run | src/handlers/JobHandler.ts:43-47 | fails exactly when the handler is not initialized, with "This handler hasn't initialized." |
| JobHandlers.JobHandler.MakeMessage | src/handlers/JobHandler.ts:63-70 | returns the same message; its body is parsed when content is present and left alone otherwise |
| JobHandlers.JobHandler.CallHandler | src/handlers/JobHandler.ts:72-75 | makes the message, then logs exactly one callback call with its body and the given meta; the outcome is the callback's |
| JobHandlers.JobHandler.Handle | src/handlers/JobHandler.ts:77-79 | one callback call with no meta, and no ack or reject |
| OneShot.OneShotTopology | src/handlers/OneShotHandler.ts:15-27 | one declaration only: the durable primary queue under the handler's queue name |
| OneShot.OneShotHandleEffects | src/handlers/OneShotHandler.ts:43-59 | the callback is called first, with the body and no meta, and nothing is called after it; an ack of the delivery comes last unless noAck; no onError when the callback returned |
| OneShot.OneShotDispositions | src/handlers/OneShotHandler.ts:43-59 | per delivery: exactly one ack when noAck is false and none when true, never a reject; one callback call without meta; onError once exactly when the callback threw and one was supplied |
| OneShot.OneShotHandler.Create | src/handlers/OneShotHandler.ts:10-13 | fails exactly on a missing channel; noAck is `!!options.noAck` |
| OneShot.OneShotHandler.Initialize | src/handlers/OneShotHandler.ts:15-27 | declares the primary queue dead-lettering to `${q}.retry` with key q, then is initialized |
| OneShot.OneShotHandler.Run | src/handlers/OneShotHandler.ts:29-41 | fails without consuming when uninitialized, else consumes the queue with its noAck |
| OneShot.OneShotHandler.OnDelivery | src/handlers/OneShotHandler.ts:34-37 | a null delivery leaves the log unchanged; any other gets its body parsed from its content when content is present, then the one-shot effects on that body |
| OneShot.OneShotHandler.Handle | src/handlers/OneShotHandler.ts:43-59 | the log grows by the one-shot effects (call, onError if it threw, ack unless noAck, in that order); returns the value only on success |
| Queue.QueueHandleEffects | src/handlers/QueueHandler.ts:22-30 | the handler is called first, then one settlement of that delivery: an ack exactly when the handler returned, otherwise a reject, and every reject requeues |
| Queue.QueueDispositions | src/handlers/QueueHandler.ts:22-30 | per delivery: one callback call and exactly one disposition, an ack after success and a reject with requeue after failure |
| Queue.QueueHandler.Handle | src/handlers/QueueHandler.ts:19-34 | consumes the queue with noAck false |
| Queue.QueueHandler.OnDelivery | src/handlers/QueueHandler.ts:22-30 | a null delivery is ignored; any other gets the call, then ack or reject with requeue |
| WithRetry.MergeRetryOption | src/handlers/WithRetryHandler.ts:14 | the defaults are overridden by present caller options, and `maxRetries` stays 5 because the caller's key is `maxRetires` |
| WithRetry.EffectiveMaxRetries | src/handlers/WithRetryHandler.ts:163 | the option's `maxRetires` when truthy, else 5; never 0 |
| WithRetry.EffectiveLimitOfMergedOptions | src/handlers/WithRetryHandler.ts:163 | the limit in force is the caller's `maxRetires` when truthy, and 5 otherwise |
| WithRetry.ExchangeType | src/handlers/WithRetryHandler.ts:79 | the configured exchange type when non-empty, else the default; never empty |
| WithRetry.SpecifiedName | src/handlers/WithRetryHandler.ts:89-91 | the name splits into the prefix (when truthy, else the queue name), a hyphen and the type |
| WithRetry.RoutingKey | src/handlers/WithRetryHandler.ts:84-87 | the configured routing key when truthy, else the queue name |
| WithRetry.SpecifiedNamesDistinct | src/handlers/WithRetryHandler.ts:84-91 | the retry, requeue and error names are pairwise different, and without a prefix none equals the primary queue |
| WithRetry.FindRetryTime | src/handlers/WithRetryHandler.ts:104-113 | 0 for a count ≤ 0; for a count y ≥ 1, a round k ≥ 1 whose boundary 2k² − 2k + 1 ≤ y is below the next one |
| WithRetry.NeedDelayMore | src/handlers/WithRetryHandler.ts:116-122 | false for a retry time ≤ 0; for a round k ≥ 1 whose boundary is at most the count, true exactly when the count is not that boundary |
| WithRetry.FindRetryTimeMonotone | src/handlers/WithRetryHandler.ts:104-113 | a higher count never decodes to an earlier round |
| WithRetry.RetryTimeIsLargestRound | src/handlers/WithRetryHandler.ts:104-113 | for y ≥ 1 findX has a root, so the 99999 sentinel is never returned, and the retry time is the largest round whose boundary is at most y |
| WithRetry.DelayIff | src/handlers/WithRetryHandler.ts:115-151 | a delivery is delayed exactly when its count is ≥ 1 and is not a round boundary; equivalently `!isXInteger(y)` for y ≥ 1 |
| WithRetry.InvokedRoundIsExact | src/handlers/WithRetryHandler.ts:101-122 | a count ≥ 1 that is not delayed is exactly a round boundary, so findX's root is the integer retry time |
| WithRetry.TotalCount | src/handlers/WithRetryHandler.ts:139-141 | the count of the first `x-death` entry, and 0 for missing headers or an empty history |
| WithRetry.Decide | src/handlers/WithRetryHandler.ts:143-154 | delay exactly when the count is ≥ 1 and is no boundary 2k² − 2k + 1 (k ≥ 1); otherwise call back at round 0 for a count ≤ 0, and at the round k ≥ 1 whose boundary the count is |
| WithRetry.FreshDeliveryCallsAtZero | src/handlers/WithRetryHandler.ts:104-122 | a count ≤ 0, a missing `x-death` included, is never delayed and calls back at round 0 |
| WithRetry.RetryTimeOfBracket | src/handlers/WithRetryHandler.ts:104-113 | a count between the boundaries of rounds k and k+1 has retry time k |
| WithRetry.DecideAtBoundary | src/handlers/WithRetryHandler.ts:143-154 | at the boundary 2k² − 2k + 1 (k ≥ 1) the callback runs at round k |
| WithRetry.DecideBetweenBoundaries | src/handlers/WithRetryHandler.ts:143-151 | strictly between two boundaries the delivery is delayed |
| WithRetry.FirstCountDecisions | src/handlers/WithRetryHandler.ts:143-154 | counts 0..5 are decided as: call at 0, call at 1, delay, delay, delay, call at 2 |
| WithRetry.AlwaysFailingUpToTwoRetries | src/handlers/WithRetryHandler.ts:143-175 | with a limit of 2 and a callback that always throws: counts 0 and 1 call it and reject without requeue; counts 2 to 4 are only rejected; count 5 calls it, then acks and sends the error record |
| WithRetry.AlwaysFailingFresh | src/handlers/WithRetryHandler.ts:143-166 | with a limit of 2, a failing call at count 0 is followed by a reject without requeue |
| WithRetry.AlwaysFailingFirstRetry | src/handlers/WithRetryHandler.ts:143-166 | with a limit of 2, a failing call at count 1 is followed by a reject without requeue |
| WithRetry.AlwaysFailingDelayed | src/handlers/WithRetryHandler.ts:143-151 | the counts 2 to 4 get one reject without requeue and nothing else |
| WithRetry.AlwaysFailingAtLimit | src/handlers/WithRetryHandler.ts:143-169 | with a limit of 2, a failing call at count 5 (round 2) is followed by an ack and the error record |
| WithRetry.AlwaysFailingAtCall | src/handlers/WithRetryHandler.ts:153-169 | a failing call at round t is followed by a reject below the limit, else by the ack and the error record |
| WithRetry.RetryTimeBeforeRoundTwo | src/handlers/WithRetryHandler.ts:104-113 | the counts 1 to 4 decode to round 1 |
| WithRetry.RoundOneDelaysAbove | src/handlers/WithRetryHandler.ts:116-122 | at round 1 every count above 1 is delayed |
| WithRetry.RetryTopology | src/handlers/WithRetryHandler.ts:17-76 | seven declarations and nothing else, the primary queue first; every queue and exchange is durable |
| WithRetry.RetryQueueDeclared | src/handlers/WithRetryHandler.ts:39-51 | the retry queue is declared dead-lettering to the requeue exchange with the routing key and the initial delay as TTL |
| WithRetry.ErrorQueueDeclared | src/handlers/WithRetryHandler.ts:65-73 | the error queue is declared with a 30-day TTL and no dead-letter exchange |
| WithRetry.RetryTopologyClosesLoop | src/handlers/WithRetryHandler.ts:17-82 | the declarations close the backoff loop: primary → retry exchange → retry queue (TTL = initial delay) → requeue exchange → primary, keeping the routing key; the error queue keeps records for 30 days |
| WithRetry.ErrorData | src/handlers/WithRetryHandler.ts:186-198 | the record's data is null or truthy; when not null it is the parsed content; a present content that parses to a truthy value is kept |
| WithRetry.ErrorMsgEffects | src/handlers/WithRetryHandler.ts:183-207 | an ack of this delivery only (allUpTo false), then one send to the error queue carrying the error's message and stack |
| WithRetry.RetryHandleEffects | src/handlers/WithRetryHandler.ts:138-175 | at least one entry, with the callback called at most once and only first; a delayed delivery starts with a reject without requeue; otherwise it starts with the call carrying the parsed body and the retry time as `retry_count` |
| WithRetry.DelayedDeliveryOnlyRejected | src/handlers/WithRetryHandler.ts:145-151 | a delayed delivery gets exactly one reject without requeue: no callback, no ack, no onError |
| WithRetry.FailedCallSettledOnce | src/handlers/WithRetryHandler.ts:160-174 | a failing call is settled exactly once (reject, or the ack of the error path), the callback runs once, and onError runs once, last, exactly when one was supplied |
| WithRetry.ExactlyOneDisposition | src/handlers/WithRetryHandler.ts:153-207 | every delivery is settled exactly once: ack on success, reject below the limit, ack plus the error record at the limit; onError once per failure, after the disposition |
| WithRetry.WithRetryHandler.Create | src/handlers/WithRetryHandler.ts:12-15 | fails exactly on a missing channel; the options are the merged ones |
| WithRetry.WithRetryHandler.Initialize | src/handlers/WithRetryHandler.ts:17-76 | issues the retry topology in order, then is initialized |
| WithRetry.WithRetryHandler.AssertExchange | src/handlers/WithRetryHandler.ts:78-82 | declares a durable exchange of the configured type (default `direct`) under the hyphenated name |
| WithRetry.WithRetryHandler.Run | src/handlers/WithRetryHandler.ts:124-136 | fails without consuming when uninitialized, else consumes with noAck false |
| WithRetry.WithRetryHandler.OnDelivery | src/handlers/WithRetryHandler.ts:129-133 | a null delivery leaves the log unchanged; any other is handled; its body is left alone when delayed, and parsed from its content when the callback is called |
| WithRetry.WithRetryHandler.Handle | src/handlers/WithRetryHandler.ts:138-175 | the log grows by the retry effects of the delivery; the body is parsed only when the callback is called; returns the value only on success |
| WithRetry.WithRetryHandler.HandleRetryMsg | src/handlers/WithRetryHandler.ts:177-181 | one reject without requeue |
| WithRetry.WithRetryHandler.HandleErrorMsg | src/handlers/WithRetryHandler.ts:183-207 | an ack, then the record {data, error, stack} to the error queue with the original headers; data is the parsed body when truthy, else null |
| Facade.PrefixOf | src/classes/Rabbit.ts:24 | the caller's prefix when non-empty, else "rabi" |
| Facade.InjectPrefix | src/classes/Rabbit.ts:27-29 | the name splits into prefix, ':', type, '.', name |
| Facade.GetJobHandler | src/classes/Rabbit.ts:114-125 | a custom handler wins; otherwise one-shot exactly when `oneShot` is true; otherwise retry |
| Facade.PublishReachesSubscribers | src/classes/Rabbit.ts:31-73 | publish and subscribe meet on one fanout exchange: the one published to is the one every subscriber queue is bound to, and the raw subject is the routing key |
| Facade.AddJobReachesWorkers | src/classes/Rabbit.ts:75-102 | addJob sends to the very queue that processJob's built-in handler consumes |
| Facade.DeadLetterExchangesDisagree | src/classes/Rabbit.ts:59-67 | whatever the options, the facade declares a queue with dead-letter exchange `${q}.retry`, and the retry handler's initialize declares the same queue with `-retry` after the prefix (or q when there is none) (src/handlers/WithRetryHandler.ts lines 20-27); the two names differ |
| Facade.Rabbit.constructor | src/classes/Rabbit.ts:21-25 | the prefix is the caller's when non-empty, else 'rabi' |
| Facade.Rabbit.Publish | src/classes/Rabbit.ts:31-45 | a durable fanout exchange `prefix:pub.subject`, then the data published to it keyed by the subject |
| Facade.Rabbit.Subscribe | src/classes/Rabbit.ts:47-73 | exchange, subscriber queue and binding; then the chosen handler's declarations and consume; the run never fails |
| Facade.Rabbit.AddJob | src/classes/Rabbit.ts:75-93 | declares `prefix:que.subject` dead-lettering to its `.retry`, then sends the payload to it |
| Facade.Rabbit.ProcessJob | src/classes/Rabbit.ts:95-102 | the chosen handler's declarations and consume on `prefix:que.subject`; the run never fails |
| Facade.Rabbit.CreateJobHandler | src/classes/Rabbit.ts:104-112 | a fresh handler of the chosen kind on this channel and queue, already initialized, after its declarations |
| Facade.Rabbit.RunHandler | src/classes/Rabbit.ts:70-72 | running a handler that was just created succeeds and issues that kind's consume |

## Left out

- WithRetry.MergeRetryOption: a caller key that is present but set to `undefined` is treated as absent, so the default is kept. `Object.assign` copies such a key over the default. For `routingKey`, `prefixQueueName`, `exchangeType` and `maxRetires` this makes no difference, because each is read through `||`. For `initialDelayTime` it does: the source then declares the retry queue with `x-message-ttl` undefined, and the model declares it with 5000.
- Asynchrony: every `await` is sequential in the model, and acks that are not awaited (`QueueHandler`) are ordered as written. Interleaving of concurrent deliveries is not modelled.
- QuadraticRoot.FindX: specialised to a = 2, b = −2, the only coefficients the code uses. It returns the floor of the real root, not the floating-point value itself.
- Numbers are unbounded integers. Floating-point rounding of `Math.sqrt` for very large counts is not modelled.
- `prefetch` (base handler and `QueueHandler`) and the commented-out prefetch in `run`: no effect on the modelled trace.
- The logger calls: output only.
- The broker's own behaviour (dead-lettering, TTL expiry, the `x-death` bookkeeping) is not executed. Only the declarations and operations the library issues are modelled.
- `ConnectionBuilder`, `ChannelBuilder`, `MessageOptions` and `MessageData` are not part of this model. The channel is a constructor parameter, caller options are an opaque string map, and the payload is kept as a JSON value.
- A custom `JobHandler` subclass supplied by the caller is user code. The facade is modelled with the base class's behaviour for it.
- JSON.parse and JSON.stringify are parameters. That one inverts the other is an assumption of `JobHandlers.BufferRoundTrip`, not something proved.
- Thrown values that are not `Error` objects: an error is always modelled with a message and an optional stack.
- Options the source has but does not use: `manually`, `jobHandlerType` and the rolling queue types.
- The `false` returned by the consume callbacks for a null delivery: its value is ignored by amqplib, so only "no effect" is stated.
- `publish`'s and `sendToQueue`'s boolean results (amqplib's flow-control signal).
