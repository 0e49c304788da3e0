/**
 * The facade: prefixed names for subjects and job queues, the declarations
 * made before publishing, subscribing and queueing jobs, and the choice and
 * set-up of a job handler.
 */
module Facade {
  import opened Wrappers
  import opened JsValues
  import opened JobHandlerInterface
  import opened Amqp
  import opened Exceptions
  import opened JobHandlers
  import opened OneShot
  import opened WithRetry

  /** `PREFIX_QUEUE_TYPES`. */
  const PublishType: string := "pub"
  const QueueType: string := "que"

  /** The options of subscribe and processJob that reach the handler. */
  datatype BaseOptions = BaseOptions(
    customHandler: bool,
    oneShot: Option<bool>,
    noAck: Option<bool>,
    retry: RetryOptionInput)

  /** Which handler class `_getJobHandler` picks. */
  datatype HandlerKind = CustomHandler | OneShotKind | WithRetryKind

  /** A created handler of either built-in strategy, or a custom one seen through its base class. */
  datatype JobHandlerRef =
    | Custom(custom: JobHandler)
    | OneShotRef(oneShot: OneShotHandler)
    | WithRetryRef(withRetry: WithRetryHandler)

  /** `prefix || 'rabi'`. */
  function PrefixOf(prefix: Option<string>): (r: string)
    ensures TruthyString(prefix) ==> r == prefix.value
    ensures !TruthyString(prefix) ==> r == "rabi"
  {
    OrElse(prefix, "rabi")
  }

  /** `_injectPrefix(name, type)`: `${prefix}:${type}.${name}`. */
  function InjectPrefix(prefix: string, name: string, kind: string): (r: string)
    ensures |r| == |prefix| + |kind| + |name| + 2
    ensures r[..|prefix|] == prefix && r[|prefix|] == ':'
    ensures r[|prefix| + 1..|prefix| + 1 + |kind|] == kind
    ensures r[|prefix| + 1 + |kind|] == '.' && r[|prefix| + |kind| + 2..] == name
  {
    prefix + ":" + kind + "." + name
  }

  /** `_getJobHandler(opts)`: a custom handler first, then one-shot if asked for, else retry. */
  function GetJobHandler(opts: BaseOptions): (k: HandlerKind)
    ensures k == CustomHandler <==> opts.customHandler
    ensures k == OneShotKind <==> !opts.customHandler && opts.oneShot == Some(true)
    ensures k == WithRetryKind <==> !opts.customHandler && opts.oneShot != Some(true)
  {
    if opts.customHandler then CustomHandler
    else if TruthyBool(opts.oneShot) then OneShotKind
    else WithRetryKind
  }

  /** What initializing a handler of kind `k` on `queueName` declares. */
  function InitEffects(k: HandlerKind, queueName: string, opts: BaseOptions): (e: seq<Event>) {
    match k
    case CustomHandler => []
    case OneShotKind => OneShotTopology(queueName)
    case WithRetryKind => RetryTopology(queueName, MergeRetryOption(opts.retry))
  }

  /** What running an initialized handler of kind `k` issues. */
  function RunEffects(k: HandlerKind, queueName: string, opts: BaseOptions): (e: seq<Event>) {
    match k
    case CustomHandler => []
    case OneShotKind => [Issued(Consume(queueName, TruthyBool(opts.noAck)))]
    case WithRetryKind => [Issued(Consume(queueName, false))]
  }

  /** The exchange a subject is published on: `prefix:pub.subject`. */
  function SubjectExchange(prefix: string, subject: string): (r: string) {
    InjectPrefix(prefix, subject, PublishType)
  }

  /** The queue a subscriber group reads a subject from: `prefix:pub.queue.subject`. */
  function SubscriberQueue(prefix: string, queue: string, subject: string): (r: string) {
    InjectPrefix(prefix, queue + "." + subject, PublishType)
  }

  /** The queue jobs of a subject go to: `prefix:que.subject`. */
  function JobQueue(prefix: string, subject: string): (r: string) {
    InjectPrefix(prefix, subject, QueueType)
  }

  /** The primary-queue declaration the facade makes: dead-lettering to `${queue}.retry`, keyed by the queue. */
  function FacadeQueueDeclaration(queueName: string): (e: Event) {
    Issued(AssertQueue(queueName, QueueOptions(true,
      QueueArguments(Some(CreateExchangeName(queueName, Retry)), Some(queueName), None))))
  }

  function PublishEffects(prefix: string, subject: string, data: Json, opts: map<string, string>): (e: seq<Event>) {
    var exchange := SubjectExchange(prefix, subject);
    [ Issued(AssertExchange(exchange, "fanout", ExchangeOptions(true, None))),
      Issued(Publish(exchange, subject, UserData(data), CallerOptions(opts))) ]
  }

  function SubscribeDeclarations(prefix: string, subject: string, queue: string): (e: seq<Event>) {
    var exchange := SubjectExchange(prefix, subject);
    var q := SubscriberQueue(prefix, queue, subject);
    [ Issued(AssertExchange(exchange, "fanout", ExchangeOptions(true, Some(false)))),
      FacadeQueueDeclaration(q),
      Issued(BindQueue(q, exchange, "")) ]
  }

  function AddJobEffects(prefix: string, subject: string, payload: Json, opts: map<string, string>): (e: seq<Event>) {
    var q := JobQueue(prefix, subject);
    [ FacadeQueueDeclaration(q),
      Issued(SendToQueue(q, UserData(payload), CallerOptions(opts))) ]
  }

  /**
   * Publishing and subscribing meet on one exchange: the fanout exchange a
   * subject is published to is the one every subscriber queue of that subject
   * is bound to, with the empty key; the raw subject is the routing key.
   */
  lemma PublishReachesSubscribers(prefix: string, subject: string, queue: string, data: Json, opts: map<string, string>)
    ensures var p := PublishEffects(prefix, subject, data, opts);
      var s := SubscribeDeclarations(prefix, subject, queue);
      && p[1].op.Publish? && p[1].op.routingKey == subject
      && s[2] == Issued(BindQueue(SubscriberQueue(prefix, queue, subject), p[1].op.exchange, ""))
      && s[0].op.AssertExchange? && s[0].op.exchange == p[0].op.exchange == p[1].op.exchange
      && p[0].op.kind == s[0].op.kind == "fanout"
  {
  }

  /**
   * Queuing a job and processing jobs meet on one queue: addJob sends to the
   * queue processJob's handler consumes.
   */
  lemma AddJobReachesWorkers(prefix: string, subject: string, payload: Json, opts: map<string, string>, wopts: BaseOptions)
    requires GetJobHandler(wopts) != CustomHandler
    ensures var a := AddJobEffects(prefix, subject, payload, opts);
      var consume := RunEffects(GetJobHandler(wopts), JobQueue(prefix, subject), wopts)[0];
      && a[1].op.SendToQueue? && consume.op.Consume?
      && a[1].op.queue == consume.op.queue == a[0].op.queue
  {
  }

  /**
   * The facade declares a primary queue with dead-letter exchange
   * `${queue}.retry`, and the retry handler declares the same queue with
   * `${prefixQueueName || queue}-retry`: whatever the options, two different
   * names for the one queue's dead-letter exchange.
   */
  lemma DeadLetterExchangesDisagree(queueName: string, o: RetryOption)
    ensures var facade := FacadeQueueDeclaration(queueName).op;
      var handler := RetryTopology(queueName, o)[0].op;
      && facade.AssertQueue? && handler.AssertQueue? && facade.queue == handler.queue
      && facade.queueOptions.arguments.deadLetterExchange == Some(queueName + ".retry")
      && handler.queueOptions.arguments.deadLetterExchange == Some(OrElse(o.prefixQueueName, queueName) + "-retry")
      && facade.queueOptions.arguments.deadLetterExchange != handler.queueOptions.arguments.deadLetterExchange
  {
    var dot, dash := queueName + ".retry", OrElse(o.prefixQueueName, queueName) + "-retry";
    assert CreateExchangeName(queueName, Retry) == dot;
    assert SpecifiedName(o, queueName, Retry) == dash;
    assert dot[|dot| - 6] == '.' && dash[|dash| - 6] == '-';
  }

  class Rabbit {
    const channel: Channel
    const prefix: string

    /** The connection and channel builders are represented by the one channel they yield. */
    constructor (channel: Channel, prefix: Option<string>)
      ensures this.channel == channel && this.prefix == PrefixOf(prefix)
    {
      this.channel := channel;
      this.prefix := PrefixOf(prefix);
    }

    /** `publish(subject, data, opts)`: a durable fanout exchange, then the message keyed by the raw subject. */
    method Publish(subject: string, data: Json, opts: map<string, string>)
      modifies channel
      ensures channel.log == old(channel.log) + PublishEffects(prefix, subject, data, opts)
    {
      var vSubject := InjectPrefix(prefix, subject, PublishType);
      channel.AssertExchange(vSubject, "fanout", ExchangeOptions(true, None));
      channel.Publish(vSubject, subject, UserData(data), CallerOptions(opts));
    }

    /**
     * `subscribe(subject, opts, handler, onError)`: declares the subject
     * exchange and the subscriber queue, binds them, then creates, initializes
     * and runs a handler on the queue; the run never fails.
     */
    method Subscribe(subject: string, queue: string, opts: BaseOptions)
      returns (h: JobHandlerRef, r: Outcome<JobHandlerException>)
      modifies channel
      ensures r.Pass?
      ensures var q := SubscriberQueue(prefix, queue, subject);
        channel.log == old(channel.log) + SubscribeDeclarations(prefix, subject, queue)
          + InitEffects(GetJobHandler(opts), q, opts) + RunEffects(GetJobHandler(opts), q, opts)
    {
      var vSubject := InjectPrefix(prefix, subject, PublishType);
      channel.AssertExchange(vSubject, "fanout", ExchangeOptions(true, Some(false)));
      var vQueueName := InjectPrefix(prefix, queue + "." + subject, PublishType);
      channel.AssertQueue(vQueueName, QueueOptions(true,
        QueueArguments(Some(CreateExchangeName(vQueueName, Retry)), Some(vQueueName), None)));
      channel.BindQueue(vQueueName, vSubject, "");
      h := CreateJobHandler(vQueueName, opts);
      r := RunHandler(h, vQueueName, opts);
    }

    /** `addJob(subject, payload, opts)`: declares the job queue, then sends the payload to it. */
    method AddJob(subject: string, payload: Json, opts: map<string, string>)
      modifies channel
      ensures channel.log == old(channel.log) + AddJobEffects(prefix, subject, payload, opts)
    {
      var vQueueName := InjectPrefix(prefix, subject, QueueType);
      channel.AssertQueue(vQueueName, QueueOptions(true,
        QueueArguments(Some(CreateExchangeName(vQueueName, Retry)), Some(vQueueName), None)));
      channel.SendToQueue(vQueueName, UserData(payload), CallerOptions(opts));
    }

    /** `processJob(subject, opts, handler, onError)`: creates, initializes and runs a handler on the job queue. */
    method ProcessJob(subject: string, opts: BaseOptions)
      returns (h: JobHandlerRef, r: Outcome<JobHandlerException>)
      modifies channel
      ensures r.Pass?
      ensures var q := JobQueue(prefix, subject);
        channel.log == old(channel.log)
          + InitEffects(GetJobHandler(opts), q, opts) + RunEffects(GetJobHandler(opts), q, opts)
    {
      var vQueueName := InjectPrefix(prefix, subject, QueueType);
      h := CreateJobHandler(vQueueName, opts);
      r := RunHandler(h, vQueueName, opts);
    }

    /** Whether `h` is a handler of kind `k` on this channel and `queueName`, initialized. */
    ghost predicate Ready(h: JobHandlerRef, k: HandlerKind, queueName: string, opts: BaseOptions)
      reads match h case Custom(b) => {b} case OneShotRef(o) => {o.base} case WithRetryRef(w) => {w.base}
    {
      match h
      case Custom(b) =>
        k == CustomHandler && b.channel == channel && b.queueName == queueName && b.isInitialize
      case OneShotRef(o) =>
        k == OneShotKind && o.base.channel == channel && o.base.queueName == queueName
        && o.base.isInitialize && o.noAck == TruthyBool(opts.noAck)
      case WithRetryRef(w) =>
        k == WithRetryKind && w.base.channel == channel && w.base.queueName == queueName
        && w.base.isInitialize && w.option == MergeRetryOption(opts.retry)
    }

    /**
     * `_createJobHandler(channel, queueName, opts)`: constructs the handler
     * `_getJobHandler` picks and initializes it before returning it.
     */
    method CreateJobHandler(queueName: string, opts: BaseOptions) returns (h: JobHandlerRef)
      modifies channel
      ensures Ready(h, GetJobHandler(opts), queueName, opts)
      ensures match h
        case Custom(b) => fresh(b)
        case OneShotRef(o) => fresh(o) && fresh(o.base)
        case WithRetryRef(w) => fresh(w) && fresh(w.base)
      ensures channel.log == old(channel.log) + InitEffects(GetJobHandler(opts), queueName, opts)
    {
      var base := new JobHandler(channel, queueName);
      match GetJobHandler(opts) {
        case CustomHandler =>
          var _ := base.Initialize();
          h := Custom(base);
        case OneShotKind =>
          var o := new OneShotHandler(base, opts.noAck);
          var _ := o.Initialize();
          h := OneShotRef(o);
        case WithRetryKind =>
          var w := new WithRetryHandler(base, opts.retry);
          var _ := w.Initialize();
          h := WithRetryRef(w);
      }
    }

    /** `jobHandler.run(handler, onError)` on a handler `_createJobHandler` returned. */
    method RunHandler(h: JobHandlerRef, queueName: string, opts: BaseOptions)
      returns (r: Outcome<JobHandlerException>)
      requires Ready(h, GetJobHandler(opts), queueName, opts)
      modifies channel
      ensures r.Pass?
      ensures channel.log == old(channel.log) + RunEffects(GetJobHandler(opts), queueName, opts)
    {
      match h {
        case Custom(b) =>
          r := b.Run();
        case OneShotRef(o) =>
          r := o.Run();
        case WithRetryRef(w) =>
          r := w.Run();
      }
    }
  }
}
