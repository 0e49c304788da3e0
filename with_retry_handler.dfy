/**
 * The retry strategy. A redelivery count y, read from the first `x-death`
 * entry, is decoded into a retry round through y = 2x^2 - 2x + 1. A count
 * that falls between two round boundaries is bounced back through the retry
 * queue without calling the callback; at a boundary the callback runs, and a
 * failure is either bounced for another round or, once the round reaches the
 * retry limit, acknowledged and recorded in the error queue.
 */
module WithRetry {
  import opened Wrappers
  import opened JsValues
  import opened JobHandlerInterface
  import opened Amqp
  import opened QuadraticRoot
  import opened SafeParse
  import opened Exceptions
  import opened JobHandlers

  /** Returned by `_findRetryTime` where findX gives null. */
  const ExceededRetries: int := 99999

  // ----- options ---------------------------------------------------------

  /**
   * `Object.assign({}, DEFAULT_RETRY_OPTION, option)`. The caller's limit key
   * is `maxRetires`, so the default key `maxRetries` always keeps its value.
   */
  function MergeRetryOption(input: RetryOptionInput): (o: RetryOption)
    ensures o.maxRetries == DefaultMaxRetries
    ensures o.maxRetires == input.maxRetires
    ensures input.initialDelayTime.Some? ==> o.initialDelayTime == input.initialDelayTime.value
    ensures input.initialDelayTime.None? ==> o.initialDelayTime == DefaultInitialDelayTime
    ensures input.exchangeType.Some? ==> o.exchangeType == input.exchangeType.value
    ensures input.exchangeType.None? ==> o.exchangeType == DefaultExchangeType
    ensures o.prefixQueueName == input.prefixQueueName && o.routingKey == input.routingKey
  {
    RetryOption(
      input.initialDelayTime.GetOr(DefaultInitialDelayTime),
      DefaultMaxRetries,
      input.exchangeType.GetOr(DefaultExchangeType),
      input.maxRetires,
      input.prefixQueueName,
      input.routingKey)
  }

  /** `this.option.maxRetires || DEFAULT_RETRY_OPTION.maxRetries`. */
  function EffectiveMaxRetries(o: RetryOption): (n: int)
    ensures n != 0
    ensures o.maxRetires.Some? && o.maxRetires.value != 0 ==> n == o.maxRetires.value
    ensures o.maxRetires.None? || o.maxRetires == Some(0) ==> n == DefaultMaxRetries
  {
    if o.maxRetires.Some? && o.maxRetires.value != 0 then o.maxRetires.value else DefaultMaxRetries
  }

  /** The limit in force is the caller's `maxRetires` when it is truthy, and 5 otherwise. */
  lemma EffectiveLimitOfMergedOptions(input: RetryOptionInput)
    ensures input.maxRetires.Some? && input.maxRetires.value != 0 ==>
      EffectiveMaxRetries(MergeRetryOption(input)) == input.maxRetires.value
    ensures input.maxRetires.None? || input.maxRetires == Some(0) ==>
      EffectiveMaxRetries(MergeRetryOption(input)) == 5
  {
  }

  /** `this.option.exchangeType || DEFAULT_RETRY_OPTION.exchangeType`. */
  function ExchangeType(o: RetryOption): (kind: string)
    ensures kind != ""
    ensures o.exchangeType != "" ==> kind == o.exchangeType
    ensures o.exchangeType == "" ==> kind == DefaultExchangeType
  {
    if o.exchangeType != "" then o.exchangeType else DefaultExchangeType
  }

  // ----- names -----------------------------------------------------------

  /** `_getSpecifiedName(type)`: `${prefixQueueName || queueName}-${type}`. */
  function SpecifiedName(o: RetryOption, queueName: string, kind: string): (r: string)
    ensures var n := if TruthyString(o.prefixQueueName) then o.prefixQueueName.value else queueName;
      && |r| == |n| + 1 + |kind|
      && r[..|n|] == n && r[|n|] == '-' && r[|n| + 1..] == kind
  {
    OrElse(o.prefixQueueName, queueName) + "-" + kind
  }

  /** `_getRoutingKey()`: `routingKey || queueName`. */
  function RoutingKey(o: RetryOption, queueName: string): (key: string)
    ensures TruthyString(o.routingKey) ==> key == o.routingKey.value
    ensures !TruthyString(o.routingKey) ==> key == queueName
  {
    OrElse(o.routingKey, queueName)
  }

  /**
   * The retry, requeue and error names are pairwise different, and without a
   * `prefixQueueName` none of them is the primary queue's name.
   */
  lemma SpecifiedNamesDistinct(o: RetryOption, queueName: string)
    ensures SpecifiedName(o, queueName, Retry) != SpecifiedName(o, queueName, Requeue)
    ensures SpecifiedName(o, queueName, Retry) != SpecifiedName(o, queueName, Error)
    ensures SpecifiedName(o, queueName, Requeue) != SpecifiedName(o, queueName, Error)
    ensures !TruthyString(o.prefixQueueName) ==>
      forall kind :: SpecifiedName(o, queueName, kind) != queueName
  {
    var n := OrElse(o.prefixQueueName, queueName);
    SuffixedNamesDiffer(n, "-", Retry, Requeue);
    SuffixedNamesDiffer(n, "-", Retry, Error);
    SuffixedNamesDiffer(n, "-", Requeue, Error);
    if !TruthyString(o.prefixQueueName) {
      forall kind ensures SpecifiedName(o, queueName, kind) != queueName {
        assert |SpecifiedName(o, queueName, kind)| > |queueName|;
      }
    }
  }

  // ----- the round decoder -----------------------------------------------

  /**
   * `_findRetryTime(count)`, up to the floor of its real result: 0 for a count
   * of 0 or less, otherwise the floor of the larger root of
   * 2x^2 - 2x + (1 - count) = 0.
   */
  function FindRetryTime(count: int): (t: int)
    ensures count <= 0 ==> t == 0
    ensures count >= 1 ==> t >= 1 && RoundCount(t) <= count < RoundCount(t + 1)
  {
    if count <= 0 then 0
    else
      FloorRootIsLargestRound(count);
      match FindX(1 - count)
      case None => ExceededRetries
      case Some(x) => x
  }

  /**
   * `_needDelayMore(retryTime, totalCount)`: false for a non-positive retry
   * time, otherwise whether the round's first count 2k^2 - 2k + 1 of the
   * integer part k is still below the total count.
   */
  function NeedDelayMore(retryTime: int, totalCount: int): (r: bool)
    ensures retryTime <= 0 ==> !r
    ensures retryTime >= 1 && RoundCount(retryTime) <= totalCount ==> (r <==> RoundCount(retryTime) != totalCount)
  {
    if retryTime <= 0 then false
    else FindY(2, -2, 1, retryTime) < totalCount
  }

  /** A higher redelivery count never decodes to an earlier round. */
  lemma FindRetryTimeMonotone(y1: int, y2: int)
    requires y1 <= y2
    ensures FindRetryTime(y1) <= FindRetryTime(y2)
  {
    if y1 >= 1 {
      RetryTimeIsLargestRound(y2);
    }
  }

  /** For count y >= 1 the retry time is the largest round k >= 1 with 2k^2 - 2k + 1 <= y. */
  lemma RetryTimeIsLargestRound(y: int)
    requires y >= 1
    ensures FindX(1 - y).Some?
    ensures forall j :: 1 <= j && RoundCount(j) <= y ==> j <= FindRetryTime(y)
    ensures FindY(2, -2, 1, FindRetryTime(y)) <= y
  {
    FindXDefinedIff(y);
    FloorRootIsLargestRound(y);
  }

  /**
   * A delivery is delayed exactly when its count y is at least 1 and is not of
   * the form 2k^2 - 2k + 1; in particular a count of 0 or less is never delayed.
   */
  lemma DelayIff(y: int)
    ensures NeedDelayMore(FindRetryTime(y), y) <==> y >= 1 && !IsXInteger(y)
    ensures NeedDelayMore(FindRetryTime(y), y) <==>
      y >= 1 && forall k :: 1 <= k ==> RoundCount(k) != y
  {
    IsXIntegerIff(y);
    if y >= 1 {
      var t := FindRetryTime(y);
      assert FindY(2, -2, 1, t) == RoundCount(t);
      if RoundCount(t) == y {
        assert !NeedDelayMore(t, y);
      }
    }
  }

  /**
   * When a delivery with count y >= 1 is not delayed, the retry time is an exact
   * integer root of 2x^2 - 2x + (1 - y) = 0, so the real number `_findRetryTime`
   * returns is that integer.
   */
  lemma InvokedRoundIsExact(y: int)
    requires y >= 1 && !NeedDelayMore(FindRetryTime(y), y)
    ensures RoundCount(FindRetryTime(y)) == y
    ensures FindY(A, B, 1 - y, FindRetryTime(y)) == 0
  {
    var t := FindRetryTime(y);
    assert FindY(2, -2, 1, t) == RoundCount(t);
    assert FindY(A, B, 1 - y, t) == RoundCount(t) - y;
  }

  /** The count read from a delivery's headers: `x-death[0].count`, or 0. */
  function TotalCount(headers: Option<Headers>): (y: int)
    ensures headers.None? || headers.value.xDeath.None? || headers.value.xDeath.value == [] ==> y == 0
    ensures headers.Some? && headers.value.xDeath.Some? && headers.value.xDeath.value != [] ==>
      y == headers.value.xDeath.value[0].count
  {
    var h := headers.GetOr(EmptyHeaders);
    var xDeath := h.xDeath.GetOr([]);
    if xDeath == [] then 0 else xDeath[0].count
  }

  /** What `handle` decides before calling anything: bounce again, or call back at a round. */
  datatype Decision = DelayMore | CallAt(retryTime: int)

  /**
   * Delay exactly when the count is at least 1 and is no round boundary;
   * otherwise call back at round 0 for a count of 0 or less, and at the round
   * whose boundary the count is.
   */
  function Decide(count: int): (d: Decision)
    ensures d.DelayMore? <==> count >= 1 && forall k :: 1 <= k ==> RoundCount(k) != count
    ensures d.CallAt? && count <= 0 ==> d.retryTime == 0
    ensures d.CallAt? && count >= 1 ==> d.retryTime >= 1 && RoundCount(d.retryTime) == count
  {
    DelayIff(count);
    var t := FindRetryTime(count);
    if NeedDelayMore(t, count) then DelayMore
    else
      if count >= 1 then InvokedRoundIsExact(count); CallAt(t)
      else CallAt(t)
  }

  /** A count of 0 or less, a missing `x-death` included, is never delayed and calls back at round 0. */
  lemma FreshDeliveryCallsAtZero(count: int)
    requires count <= 0
    ensures Decide(count) == CallAt(0)
  {
  }

  /** The retry time of a count is the one round whose boundaries bracket it. */
  lemma RetryTimeOfBracket(y: int, k: int)
    requires k >= 1 && RoundCount(k) <= y < RoundCount(k + 1)
    ensures FindRetryTime(y) == k
  {
    var t := FindRetryTime(y);
    if t < k {
      if t + 1 < k {
        RoundCountIncreasing(t + 1, k);
      }
    } else if t > k {
      if k + 1 < t {
        RoundCountIncreasing(k + 1, t);
      }
    }
  }

  /** At a round boundary y = 2k^2 - 2k + 1 (k >= 1) the callback is called at round k. */
  lemma DecideAtBoundary(k: int)
    requires k >= 1
    ensures Decide(RoundCount(k)) == CallAt(k)
  {
    RoundCountIncreasing(k, k + 1);
    RetryTimeOfBracket(RoundCount(k), k);
    assert FindY(2, -2, 1, k) == RoundCount(k);
  }

  /** Strictly between two round boundaries the delivery is delayed. */
  lemma DecideBetweenBoundaries(y: int, k: int)
    requires k >= 1 && RoundCount(k) < y < RoundCount(k + 1)
    ensures Decide(y) == DelayMore
  {
    RetryTimeOfBracket(y, k);
    assert FindY(2, -2, 1, k) == RoundCount(k);
  }

  /**
   * The decisions for the counts 0 to 5: call back at rounds 0 and 1, delay at
   * 2, 3 and 4, call back at round 2.
   */
  lemma FirstCountDecisions()
    ensures Decide(0) == CallAt(0)
    ensures Decide(1) == CallAt(1)
    ensures Decide(2) == DelayMore && Decide(3) == DelayMore && Decide(4) == DelayMore
    ensures Decide(5) == CallAt(2)
  {
    assert Decide(1) == CallAt(1) by { RoundCountValues(); DecideAtBoundary(1); }
    assert Decide(2) == DelayMore by { RoundCountValues(); DecideBetweenBoundaries(2, 1); }
    assert Decide(3) == DelayMore by { RoundCountValues(); DecideBetweenBoundaries(3, 1); }
    assert Decide(4) == DelayMore by { RoundCountValues(); DecideBetweenBoundaries(4, 1); }
    assert Decide(5) == CallAt(2) by { RoundCountValues(); DecideAtBoundary(2); }
  }

  /**
   * Under a callback that always throws and a retry limit of 2, the first
   * counts of a delivery play out as: a reject without requeue after the
   * calls at rounds 0 and 1 (both below 2), a bare reject for the delayed
   * counts 2 to 4, and the ack with the error record after the call at round 2.
   */
  lemma AlwaysFailingUpToTwoRetries(queueName: string, o: RetryOption, tag: nat, content: Option<string>,
                                    headers: Option<Headers>, body: Option<Json>, err: JsError,
                                    hasOnError: bool, parse: Parser)
    requires EffectiveMaxRetries(o) == 2
    ensures 0 <= TotalCount(headers) <= 1 ==>
      var e := RetryHandleEffects(queueName, o, tag, content, headers, body, Threw(err), hasOnError, parse);
      |e| >= 2 && e[0].Invoked? && e[1] == Issued(Reject(tag, false))
    ensures 2 <= TotalCount(headers) <= 4 ==>
      RetryHandleEffects(queueName, o, tag, content, headers, body, Threw(err), hasOnError, parse)
        == [Issued(Reject(tag, false))]
    ensures TotalCount(headers) == 5 ==>
      var e := RetryHandleEffects(queueName, o, tag, content, headers, body, Threw(err), hasOnError, parse);
      |e| >= 3 && e[0].Invoked? && e[1..3] == ErrorMsgEffects(queueName, o, tag, content, headers, err, parse)
  {
    var y := TotalCount(headers);
    if y == 0 {
      AlwaysFailingFresh(queueName, o, tag, content, headers, body, err, hasOnError, parse);
    } else if y == 1 {
      AlwaysFailingFirstRetry(queueName, o, tag, content, headers, body, err, hasOnError, parse);
    } else if 2 <= y <= 4 {
      AlwaysFailingDelayed(queueName, o, tag, content, headers, body, err, hasOnError, parse);
    } else if y == 5 {
      AlwaysFailingAtLimit(queueName, o, tag, content, headers, body, err, hasOnError, parse);
    }
  }

  /** The count 0 calls back at round 0, below the limit 2, and is rejected. */
  lemma AlwaysFailingFresh(queueName: string, o: RetryOption, tag: nat, content: Option<string>,
                           headers: Option<Headers>, body: Option<Json>, err: JsError,
                           hasOnError: bool, parse: Parser)
    requires EffectiveMaxRetries(o) == 2 && TotalCount(headers) == 0
    ensures var e := RetryHandleEffects(queueName, o, tag, content, headers, body, Threw(err), hasOnError, parse);
      |e| >= 2 && e[0].Invoked? && e[1] == Issued(Reject(tag, false))
  {
    FreshDeliveryCallsAtZero(0);
    AlwaysFailingAtCall(queueName, o, tag, content, headers, body, err, hasOnError, parse, 0);
  }

  /** The count 1 calls back at round 1, below the limit 2, and is rejected. */
  lemma AlwaysFailingFirstRetry(queueName: string, o: RetryOption, tag: nat, content: Option<string>,
                                headers: Option<Headers>, body: Option<Json>, err: JsError,
                                hasOnError: bool, parse: Parser)
    requires EffectiveMaxRetries(o) == 2 && TotalCount(headers) == 1
    ensures var e := RetryHandleEffects(queueName, o, tag, content, headers, body, Threw(err), hasOnError, parse);
      |e| >= 2 && e[0].Invoked? && e[1] == Issued(Reject(tag, false))
  {
    assert Decide(1) == CallAt(1) by {
      FirstCountDecisions();
    }
    AlwaysFailingAtCall(queueName, o, tag, content, headers, body, err, hasOnError, parse, 1);
  }

  /** The count 5 calls back at round 2, the limit, and is acked with the error record. */
  lemma AlwaysFailingAtLimit(queueName: string, o: RetryOption, tag: nat, content: Option<string>,
                             headers: Option<Headers>, body: Option<Json>, err: JsError,
                             hasOnError: bool, parse: Parser)
    requires EffectiveMaxRetries(o) == 2 && TotalCount(headers) == 5
    ensures var e := RetryHandleEffects(queueName, o, tag, content, headers, body, Threw(err), hasOnError, parse);
      |e| >= 3 && e[0].Invoked? && e[1..3] == ErrorMsgEffects(queueName, o, tag, content, headers, err, parse)
  {
    assert Decide(5) == CallAt(2) by {
      FirstCountDecisions();
    }
    AlwaysFailingAtCall(queueName, o, tag, content, headers, body, err, hasOnError, parse, 2);
  }

  /** The counts 1 to 4 lie in round 1, between the boundaries 1 and 5. */
  lemma RetryTimeBeforeRoundTwo(y: int)
    requires 1 <= y <= 4
    ensures FindRetryTime(y) == 1
  {
    var t := FindRetryTime(y);
    assert RoundCount(2) == 5 by {
      RoundCountValues();
    }
    if t > 2 {
      RoundCountIncreasing(2, t);
    }
  }

  /** Past the boundary 1, round 1 delays. */
  lemma RoundOneDelaysAbove(y: int)
    requires y >= 2
    ensures NeedDelayMore(1, y)
  {
    assert FindY(2, -2, 1, 1) == 1;
  }

  /** The counts 2 to 4 are only rejected. */
  lemma AlwaysFailingDelayed(queueName: string, o: RetryOption, tag: nat, content: Option<string>,
                             headers: Option<Headers>, body: Option<Json>, err: JsError,
                             hasOnError: bool, parse: Parser)
    requires 2 <= TotalCount(headers) <= 4
    ensures RetryHandleEffects(queueName, o, tag, content, headers, body, Threw(err), hasOnError, parse)
      == [Issued(Reject(tag, false))]
  {
    RetryTimeBeforeRoundTwo(TotalCount(headers));
    RoundOneDelaysAbove(TotalCount(headers));
    DelayedDeliveryOnlyRejected(queueName, o, tag, content, headers, body, Threw(err), hasOnError, parse);
  }

  /** A failing call at round t is followed by a reject below the limit, else by the ack and the error record. */
  lemma AlwaysFailingAtCall(queueName: string, o: RetryOption, tag: nat, content: Option<string>,
                            headers: Option<Headers>, body: Option<Json>, err: JsError,
                            hasOnError: bool, parse: Parser, t: int)
    requires Decide(TotalCount(headers)) == CallAt(t)
    ensures var e := RetryHandleEffects(queueName, o, tag, content, headers, body, Threw(err), hasOnError, parse);
      && e[0].Invoked? && |e| >= 2
      && (t < EffectiveMaxRetries(o) ==> e[1] == Issued(Reject(tag, false)))
      && (t >= EffectiveMaxRetries(o) ==> |e| >= 3 && e[1..3] == ErrorMsgEffects(queueName, o, tag, content, headers, err, parse))
  {
    var e := RetryHandleEffects(queueName, o, tag, content, headers, body, Threw(err), hasOnError, parse);
    var settle: seq<Event> := if t < EffectiveMaxRetries(o) then [Issued(Reject(tag, false))]
      else ErrorMsgEffects(queueName, o, tag, content, headers, err, parse);
    var report: seq<Event> := if hasOnError then [ErrorReported(err)] else [];
    assert e == [Invoked(tag, MadeBody(content, body, parse), RetryMeta(t))] + (settle + report);
    assert e[1..1 + |settle|] == settle;
  }

  // ----- topology ----------------------------------------------------------

  /**
   * What `initialize` declares, in order: the primary queue dead-lettering to
   * the retry exchange, the retry and requeue exchanges, the retry queue with
   * the initial delay as TTL dead-lettering to the requeue exchange, the two
   * bindings, and the error queue.
   */
  function RetryTopology(queueName: string, o: RetryOption): (t: seq<Event>)
    ensures |t| == 7 && OnlyDeclarations(t)
    ensures t[0].op.AssertQueue? && t[0].op.queue == queueName
    ensures forall i :: 0 <= i < |t| ==>
      || t[i].op.BindQueue?
      || (t[i].op.AssertQueue? && t[i].op.queueOptions.durable)
      || (t[i].op.AssertExchange? && t[i].op.exchangeOptions.durable)
  {
    var retry, requeue, error := SpecifiedName(o, queueName, Retry),
      SpecifiedName(o, queueName, Requeue), SpecifiedName(o, queueName, Error);
    var key := RoutingKey(o, queueName);
    [ Issued(AssertQueue(queueName, QueueOptions(true, QueueArguments(Some(retry), Some(key), None)))),
      Issued(AssertExchange(retry, ExchangeType(o), ExchangeOptions(true, None))),
      Issued(AssertExchange(requeue, ExchangeType(o), ExchangeOptions(true, None))),
      Issued(AssertQueue(retry, QueueOptions(true, QueueArguments(Some(requeue), Some(key), Some(o.initialDelayTime))))),
      Issued(BindQueue(retry, retry, key)),
      Issued(BindQueue(queueName, requeue, key)),
      Issued(AssertQueue(error, QueueOptions(true, QueueArguments(None, None, Some(ErrorQueueTtl)))))
    ]
  }

  /** The queue declared in a topology under `name`, if any. */
  function DeclaredQueue(t: seq<Event>, name: string): (r: Option<QueueArguments>) {
    if t == [] then None
    else if t[0].Issued? && t[0].op.AssertQueue? && t[0].op.queue == name then Some(t[0].op.queueOptions.arguments)
    else DeclaredQueue(t[1..], name)
  }

  /** Whether a topology binds `queue` to `exchange` with `key`. */
  predicate Binds(t: seq<Event>, queue: string, exchange: string, key: string) {
    Issued(BindQueue(queue, exchange, key)) in t
  }

  /** Whether a topology declares the exchange `name`. */
  predicate DeclaresExchange(t: seq<Event>, name: string) {
    exists i :: 0 <= i < |t| && t[i].Issued? && t[i].op.AssertExchange? && t[i].op.exchange == name
  }

  /**
   * The declared topology closes the backoff loop, keeping the routing key on
   * every hop: a rejected primary delivery dead-letters to an exchange that is
   * declared and routes its key to the retry queue; the retry queue holds it
   * for the initial delay and dead-letters to a declared exchange that routes
   * the key back to the primary queue; the error queue keeps records for
   * 2592000000 ms (30 days) and dead-letters nowhere.
   */
  lemma RetryTopologyClosesLoop(queueName: string, o: RetryOption)
    requires SpecifiedName(o, queueName, Retry) != queueName
    requires SpecifiedName(o, queueName, Error) != queueName
    ensures var t := RetryTopology(queueName, o);
      var key := RoutingKey(o, queueName);
      var retry, requeue := SpecifiedName(o, queueName, Retry), SpecifiedName(o, queueName, Requeue);
      && DeclaredQueue(t, queueName) == Some(QueueArguments(Some(retry), Some(key), None))
      && DeclaresExchange(t, retry) && Binds(t, retry, retry, key)
      && DeclaredQueue(t, retry) == Some(QueueArguments(Some(requeue), Some(key), Some(o.initialDelayTime)))
      && DeclaresExchange(t, requeue) && Binds(t, queueName, requeue, key)
      && DeclaredQueue(t, SpecifiedName(o, queueName, Error)) == Some(QueueArguments(None, None, Some(2592000000)))
  {
    var t := RetryTopology(queueName, o);
    var retry, requeue := SpecifiedName(o, queueName, Retry), SpecifiedName(o, queueName, Requeue);
    assert t[1].op.exchange == retry;
    assert t[2].op.exchange == requeue;
    assert t[4] == Issued(BindQueue(retry, retry, RoutingKey(o, queueName)));
    assert t[5] == Issued(BindQueue(queueName, requeue, RoutingKey(o, queueName)));
    RetryQueueDeclared(queueName, o);
    ErrorQueueDeclared(queueName, o);
  }

  /** The retry queue is the fourth declaration, after a differently named primary queue. */
  lemma RetryQueueDeclared(queueName: string, o: RetryOption)
    requires SpecifiedName(o, queueName, Retry) != queueName
    ensures DeclaredQueue(RetryTopology(queueName, o), SpecifiedName(o, queueName, Retry))
      == Some(QueueArguments(Some(SpecifiedName(o, queueName, Requeue)), Some(RoutingKey(o, queueName)),
                             Some(o.initialDelayTime)))
  {
    var t := RetryTopology(queueName, o);
    var retry := SpecifiedName(o, queueName, Retry);
    DeclaredQueueSkips(t, retry, 3);
  }

  /** The error queue is the last declaration and no earlier queue shares its name. */
  lemma ErrorQueueDeclared(queueName: string, o: RetryOption)
    requires SpecifiedName(o, queueName, Error) != queueName
    ensures DeclaredQueue(RetryTopology(queueName, o), SpecifiedName(o, queueName, Error))
      == Some(QueueArguments(None, None, Some(2592000000)))
  {
    var t := RetryTopology(queueName, o);
    var error := SpecifiedName(o, queueName, Error);
    SpecifiedNamesDistinct(o, queueName);
    DeclaredQueueSkips(t, error, 6);
  }

  /** Declarations of other queues before position k do not change which one `name` finds. */
  lemma {:induction false} DeclaredQueueSkips(t: seq<Event>, name: string, k: nat)
    requires k <= |t|
    requires forall i :: 0 <= i < k ==> !(t[i].Issued? && t[i].op.AssertQueue? && t[i].op.queue == name)
    ensures DeclaredQueue(t, name) == DeclaredQueue(t[k..], name)
    decreases k
  {
    if k > 0 {
      assert t[1..][k - 1..] == t[k..];
      DeclaredQueueSkips(t[1..], name, k - 1);
    }
  }

  // ----- one delivery ------------------------------------------------------

  /** The error record: the parsed body when the content is present and parses to a truthy value, else null. */
  function ErrorData(content: Option<string>, parse: Parser): (data: Json)
    ensures data == JNull || Truthy(data)
    ensures data != JNull ==> content.Some? && data == ParseBufferToJSON(content, parse)
    ensures content.Some? && Truthy(ParseBufferToJSON(content, parse)) ==> data == ParseBufferToJSON(content, parse)
  {
    if content.Some? && Truthy(ParseBufferToJSON(content, parse)) then ParseBufferToJSON(content, parse)
    else JNull
  }

  /** What `_handleErrorMsg` issues: an ack, then the error record sent to the error queue with the original headers. */
  function ErrorMsgEffects(queueName: string, o: RetryOption, tag: nat, content: Option<string>,
                           headers: Option<Headers>, error: JsError, parse: Parser): (e: seq<Event>)
    ensures |e| == 2 && e[0] == Issued(Ack(tag, false)) && e[1].Issued? && e[1].op.SendToQueue?
    ensures e[1].op.queue == SpecifiedName(o, queueName, Error)
    ensures e[1].op.payload.ErrorReport? && e[1].op.payload.error == error.message && e[1].op.payload.stack == error.stack
  {
    [ Issued(Ack(tag, false)),
      Issued(SendToQueue(SpecifiedName(o, queueName, Error),
        ErrorReport(ErrorData(content, parse), error.message, error.stack),
        WithHeaders(headers.GetOr(EmptyHeaders)))) ]
  }

  /** What `handle` issues, in order, for one delivery. */
  function RetryHandleEffects(queueName: string, o: RetryOption, tag: nat, content: Option<string>,
                              headers: Option<Headers>, body: Option<Json>, result: CallbackResult,
                              hasOnError: bool, parse: Parser): (e: seq<Event>)
    ensures |e| >= 1 && CalledOnlyFirst(e)
    ensures Decide(TotalCount(headers)).DelayMore? ==> e[0] == Issued(Reject(tag, false))
    ensures Decide(TotalCount(headers)).CallAt? ==>
      e[0] == Invoked(tag, MadeBody(content, body, parse), RetryMeta(FindRetryTime(TotalCount(headers))))
  {
    match Decide(TotalCount(headers))
    case DelayMore => [Issued(Reject(tag, false))]
    case CallAt(t) =>
      [Invoked(tag, MadeBody(content, body, parse), RetryMeta(t))]
      + match result
        case Returned(_) => [Issued(Ack(tag, false))]
        case Threw(e) =>
          (if t < EffectiveMaxRetries(o) then [Issued(Reject(tag, false))]
           else ErrorMsgEffects(queueName, o, tag, content, headers, e, parse))
          + (if hasOnError then [ErrorReported(e)] else [])
  }

  /**
   * A delayed delivery gets exactly `reject(msg, false)`: no callback, no ack,
   * no `onError`.
   */
  lemma DelayedDeliveryOnlyRejected(queueName: string, o: RetryOption, tag: nat, content: Option<string>,
                                    headers: Option<Headers>, body: Option<Json>, result: CallbackResult,
                                    hasOnError: bool, parse: Parser)
    requires NeedDelayMore(FindRetryTime(TotalCount(headers)), TotalCount(headers))
    ensures var e := RetryHandleEffects(queueName, o, tag, content, headers, body, result, hasOnError, parse);
      e == [Issued(Reject(tag, false))] && Invocations(e) == 0 && ErrorReports(e) == 0
  {
    var e := RetryHandleEffects(queueName, o, tag, content, headers, body, result, hasOnError, parse);
    assert e[1..] == [];
  }

  /**
   * A failing call is settled once, by the reject or by the ack of the error
   * path, and is followed by `onError` exactly when one was supplied.
   */
  lemma FailedCallSettledOnce(queueName: string, o: RetryOption, tag: nat, content: Option<string>,
                              headers: Option<Headers>, body: Option<Json>, err: JsError,
                              hasOnError: bool, parse: Parser, t: int)
    requires Decide(TotalCount(headers)) == CallAt(t)
    ensures var e := RetryHandleEffects(queueName, o, tag, content, headers, body, Threw(err), hasOnError, parse);
      && Dispositions(e, tag) == 1 && Invocations(e) == 1
      && ErrorReports(e) == (if hasOnError then 1 else 0)
      && (hasOnError ==> e[|e| - 1] == ErrorReported(err))
  {
    var e := RetryHandleEffects(queueName, o, tag, content, headers, body, Threw(err), hasOnError, parse);
    var call: seq<Event> := [Invoked(tag, MadeBody(content, body, parse), RetryMeta(t))];
    assert Dispositions(call, tag) == 0 && Invocations(call) == 1 && ErrorReports(call) == 0 by {
      assert call[1..] == [];
      assert ErrorReports(call) == (if call[0].ErrorReported? then 1 else 0) + ErrorReports(call[1..]);
    }
    var settle: seq<Event> := if t < EffectiveMaxRetries(o) then [Issued(Reject(tag, false))]
      else ErrorMsgEffects(queueName, o, tag, content, headers, err, parse);
    var report: seq<Event> := if hasOnError then [ErrorReported(err)] else [];
    assert e == call + (settle + report);
    assert Dispositions(settle, tag) == 1 && Invocations(settle) == 0 && ErrorReports(settle) == 0 by {
      if t < EffectiveMaxRetries(o) {
        assert settle[1..] == [];
      } else {
        assert settle[1..][1..] == [];
      }
    }
    assert Dispositions(report, tag) == 0 && Invocations(report) == 0 by {
      if hasOnError {
        assert report[1..] == [];
      }
    }
    assert ErrorReports(report) == (if hasOnError then 1 else 0) by {
      if hasOnError {
        assert report[1..] == [];
      }
    }
    DispositionsAppend(settle, report, tag);
    InvocationsAppend(settle, report);
    ErrorReportsAppend(settle, report);
    DispositionsAppend(call, settle + report, tag);
    InvocationsAppend(call, settle + report);
    ErrorReportsAppend(call, settle + report);
  }

  /**
   * Every delivery is settled exactly once. A delivery that is not delayed has
   * the callback called once, with the retry time as `retry_count`, and then:
   * on success an ack; on failure below the limit a reject without requeue; on
   * failure at or above the limit an ack and the error record. `onError` runs
   * once on every failure, after the disposition, and never otherwise.
   */
  lemma ExactlyOneDisposition(queueName: string, o: RetryOption, tag: nat, content: Option<string>,
                              headers: Option<Headers>, body: Option<Json>, result: CallbackResult,
                              hasOnError: bool, parse: Parser)
    ensures var e := RetryHandleEffects(queueName, o, tag, content, headers, body, result, hasOnError, parse);
      Dispositions(e, tag) == 1
    ensures var e := RetryHandleEffects(queueName, o, tag, content, headers, body, result, hasOnError, parse);
      var d := Decide(TotalCount(headers));
      && Invocations(e) == (if d.DelayMore? then 0 else 1)
      && ErrorReports(e) == (if d.CallAt? && result.Threw? && hasOnError then 1 else 0)
    ensures var e := RetryHandleEffects(queueName, o, tag, content, headers, body, result, hasOnError, parse);
      var d := Decide(TotalCount(headers));
      d.CallAt? ==>
        && e[0] == Invoked(tag, MadeBody(content, body, parse), RetryMeta(d.retryTime))
        && (result.Returned? ==> e[1] == Issued(Ack(tag, false)) && |e| == 2)
        && (result.Threw? && d.retryTime < EffectiveMaxRetries(o) ==> e[1] == Issued(Reject(tag, false)))
        && (result.Threw? && d.retryTime >= EffectiveMaxRetries(o) ==>
              e[1..3] == ErrorMsgEffects(queueName, o, tag, content, headers, result.error, parse))
        && (result.Threw? && hasOnError ==> e[|e| - 1] == ErrorReported(result.error))
  {
    var e := RetryHandleEffects(queueName, o, tag, content, headers, body, result, hasOnError, parse);
    match Decide(TotalCount(headers))
    case DelayMore =>
      assert e == [Issued(Reject(tag, false))];
      assert e[1..] == [];
    case CallAt(t) =>
      var call: seq<Event> := [Invoked(tag, MadeBody(content, body, parse), RetryMeta(t))];
      assert Dispositions(call, tag) == 0 && Invocations(call) == 1 && ErrorReports(call) == 0 by {
        assert call[1..] == [];
        assert ErrorReports(call) == (if call[0].ErrorReported? then 1 else 0) + ErrorReports(call[1..]);
      }
      match result {
        case Returned(v) =>
          var rest: seq<Event> := [Issued(Ack(tag, false))];
          assert e == call + rest;
          assert rest[1..] == [];
          DispositionsAppend(call, rest, tag);
          InvocationsAppend(call, rest);
          ErrorReportsAppend(call, rest);
        case Threw(err) =>
          FailedCallSettledOnce(queueName, o, tag, content, headers, body, err, hasOnError, parse, t);
          AlwaysFailingAtCall(queueName, o, tag, content, headers, body, err, hasOnError, parse, t);
      }
  }

  // ----- the handler object ------------------------------------------------

  class WithRetryHandler {
    const base: JobHandler
    const option: RetryOption

    /** The constructor: the base fields and the merged options. */
    constructor (base: JobHandler, option: RetryOptionInput)
      ensures this.base == base && this.option == MergeRetryOption(option)
    {
      this.base := base;
      this.option := MergeRetryOption(option);
    }

    /** Construction through the base constructor, which rejects a missing channel. */
    static method Create(channel: Channel?, queueName: string, option: RetryOptionInput)
      returns (r: Result<WithRetryHandler, JobHandlerException>)
      ensures r.Failure? <==> channel == null
      ensures r.Failure? ==> r.error == ChannelNotFound
      ensures r.Success? ==> fresh(r.value) && fresh(r.value.base) && r.value.base.channel == channel
      ensures r.Success? ==> r.value.base.queueName == queueName && !r.value.base.isInitialize
      ensures r.Success? ==> r.value.option == MergeRetryOption(option)
    {
      var b := JobHandler.Create(channel, queueName);
      if b.Failure? {
        return Failure(b.error);
      }
      var h := new WithRetryHandler(b.value, option);
      return Success(h);
    }

    /** `initialize()`: declares the retry topology, then sets the flag and returns true. */
    method Initialize() returns (ok: bool)
      modifies base.channel, base`isInitialize
      ensures ok && base.isInitialize
      ensures base.channel.log == old(base.channel.log) + RetryTopology(base.queueName, option)
    {
      var q := base.queueName;
      var retry, requeue, error := SpecifiedName(option, q, Retry),
        SpecifiedName(option, q, Requeue), SpecifiedName(option, q, Error);
      var key := RoutingKey(option, q);
      base.channel.AssertQueue(q, QueueOptions(true, QueueArguments(Some(retry), Some(key), None)));
      AssertExchange(Retry);
      AssertExchange(Requeue);
      base.channel.AssertQueue(retry, QueueOptions(true, QueueArguments(Some(requeue), Some(key), Some(option.initialDelayTime))));
      base.channel.BindQueue(retry, retry, key);
      base.channel.BindQueue(q, requeue, key);
      base.channel.AssertQueue(error, QueueOptions(true, QueueArguments(None, None, Some(ErrorQueueTtl))));
      ok := base.Initialize();
    }

    /** `_assertExchange(type)`: a durable exchange of the configured type. */
    method AssertExchange(kind: string)
      modifies base.channel
      ensures base.channel.log == old(base.channel.log)
        + [Issued(Op.AssertExchange(SpecifiedName(option, base.queueName, kind), ExchangeType(option), ExchangeOptions(true, None)))]
    {
      base.channel.AssertExchange(SpecifiedName(option, base.queueName, kind), ExchangeType(option), ExchangeOptions(true, None));
    }

    /** `run()`: fails before consuming when not initialized, else consumes with `noAck: false`. */
    method Run() returns (r: Outcome<JobHandlerException>)
      modifies base.channel
      ensures r.Fail? <==> !base.isInitialize
      ensures r.Fail? ==> r.error == NotInitialized && base.channel.log == old(base.channel.log)
      ensures r.Pass? ==> base.channel.log == old(base.channel.log) + [Issued(Consume(base.queueName, false))]
    {
      r := base.Run();
      if r.Fail? {
        return;
      }
      base.channel.Consume(base.queueName, false);
    }

    /** The consume callback: a null delivery is ignored, any other is handled. */
    method OnDelivery(msg: Message?, result: CallbackResult, hasOnError: bool, parse: Parser)
      modifies msg, base.channel
      ensures msg == null ==> base.channel.log == old(base.channel.log)
      ensures msg != null ==>
        base.channel.log == old(base.channel.log) + RetryHandleEffects(base.queueName, option,
          msg.deliveryTag, msg.content, msg.headers, old(msg.body), result, hasOnError, parse)
      ensures msg != null && Decide(TotalCount(msg.headers)).DelayMore? ==> msg.body == old(msg.body)
      ensures msg != null && Decide(TotalCount(msg.headers)).CallAt? ==>
        msg.body == MadeBody(msg.content, old(msg.body), parse)
    {
      if msg == null {
        return;
      }
      var _ := Handle(msg, result, hasOnError, parse);
    }

    /**
     * `handle(msg, handler, onError)`: decodes the count, then delays, or calls
     * back and settles the delivery by the outcome. Returns the callback's value
     * on success and nothing otherwise.
     */
    method Handle(msg: Message, result: CallbackResult, hasOnError: bool, parse: Parser)
      returns (r: Option<Json>)
      modifies msg, base.channel
      ensures base.channel.log == old(base.channel.log) + RetryHandleEffects(base.queueName, option,
        msg.deliveryTag, msg.content, msg.headers, old(msg.body), result, hasOnError, parse)
      ensures Decide(TotalCount(msg.headers)).DelayMore? ==> msg.body == old(msg.body)
      ensures Decide(TotalCount(msg.headers)).CallAt? ==> msg.body == MadeBody(msg.content, old(msg.body), parse)
      ensures r == (if Decide(TotalCount(msg.headers)).CallAt? && result.Returned? then Some(result.value) else None)
    {
      var totalCount := TotalCount(msg.headers);
      var retryTime := FindRetryTime(totalCount);
      if NeedDelayMore(retryTime, totalCount) {
        base.channel.Reject(msg, false);
        return None;
      }
      var outcome := base.CallHandler(msg, result, RetryMeta(retryTime), parse);
      match outcome {
        case Returned(v) =>
          base.channel.Ack(msg, false);
          return Some(v);
        case Threw(e) =>
          var maxRetries := EffectiveMaxRetries(option);
          if retryTime < maxRetries {
            HandleRetryMsg(msg);
          } else {
            HandleErrorMsg(msg, e, parse);
          }
          if hasOnError {
            base.channel.NoteError(e);
          }
          return None;
      }
    }

    /** `_handleRetryMsg(msg)`: a reject without requeue, which dead-letters to the retry exchange. */
    method HandleRetryMsg(msg: Message)
      modifies base.channel
      ensures base.channel.log == old(base.channel.log) + [Issued(Reject(msg.deliveryTag, false))]
    {
      base.channel.Reject(msg, false);
    }

    /** `_handleErrorMsg(msg, error)`: an ack, then the error record to the error queue. */
    method HandleErrorMsg(msg: Message, error: JsError, parse: Parser)
      modifies base.channel
      ensures base.channel.log == old(base.channel.log)
        + ErrorMsgEffects(base.queueName, option, msg.deliveryTag, msg.content, msg.headers, error, parse)
    {
      base.channel.Ack(msg, false);
      var headers := msg.headers.GetOr(EmptyHeaders);
      var data := JNull;
      if msg.content.Some? {
        var parsed := ParseBufferToJSON(msg.content, parse);
        if Truthy(parsed) {
          data := parsed;
        }
      }
      base.channel.SendToQueue(SpecifiedName(option, base.queueName, Error),
        ErrorReport(data, error.message, error.stack), WithHeaders(headers));
    }
  }
}
