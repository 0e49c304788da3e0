/**
 * The broker client as the handlers see it: delivered messages and a channel
 * that records, in order, every operation issued on it.
 */
module Amqp {
  import opened Wrappers
  import opened JsValues
  import opened JobHandlerInterface

  /** One entry of the broker-maintained `x-death` header. */
  datatype Death = Death(count: int)

  /** Message headers: the `x-death` history, if any, and every other header. */
  datatype Headers = Headers(xDeath: Option<seq<Death>>, others: map<string, string>)

  /** The `{}` used where a message carries no headers. */
  const EmptyHeaders := Headers(None, map[])

  /** `queue`'s `arguments` in assertQueue. */
  datatype QueueArguments = QueueArguments(
    deadLetterExchange: Option<string>,
    deadLetterRoutingKey: Option<string>,
    messageTtl: Option<int>)

  datatype QueueOptions = QueueOptions(durable: bool, arguments: QueueArguments)

  datatype ExchangeOptions = ExchangeOptions(durable: bool, autoDelete: Option<bool>)

  /** What a message sent by this library carries. */
  datatype Payload =
    | ErrorReport(data: Json, error: string, stack: Option<string>)
    | UserData(value: Json)

  /** The options of sendToQueue and publish. */
  datatype SendOptions =
    | WithHeaders(headers: Headers)
    | CallerOptions(options: map<string, string>)

  /** An operation issued on the channel. */
  datatype Op =
    | AssertQueue(queue: string, queueOptions: QueueOptions)
    | AssertExchange(exchange: string, kind: string, exchangeOptions: ExchangeOptions)
    | BindQueue(queue: string, exchange: string, pattern: string)
    | Consume(queue: string, noAck: bool)
    | Ack(tag: nat, allUpTo: bool)
    | Reject(tag: nat, requeue: bool)
    | SendToQueue(queue: string, payload: Payload, sendOptions: SendOptions)
    | Publish(exchange: string, routingKey: string, payload: Payload, sendOptions: SendOptions)

  /**
   * An entry of a channel's trace: a channel operation, or a call of the user's
   * callback or `onError` made while a delivery was being handled. The calls
   * are kept in the same trace so that their order with respect to the
   * operations is visible.
   */
  datatype Event =
    | Issued(op: Op)
    | Invoked(tag: nat, body: Option<Json>, meta: Meta)
    | ErrorReported(error: JsError)

  /** A delivered message. `content` is the decoded text of its body buffer. */
  class Message {
    const deliveryTag: nat
    const content: Option<string>
    const headers: Option<Headers>
    var body: Option<Json>

    constructor (deliveryTag: nat, content: Option<string>, headers: Option<Headers>)
      ensures this.deliveryTag == deliveryTag && this.content == content
      ensures this.headers == headers && body.None?
    {
      this.deliveryTag := deliveryTag;
      this.content := content;
      this.headers := headers;
      body := None;
    }
  }

  /** Whether `e` settles the delivery with tag `tag` (an ack or a reject). */
  predicate SettlesDelivery(e: Event, tag: nat) {
    e.Issued? && (e.op.Ack? || e.op.Reject?) && e.op.tag == tag
  }

  /** How many acks and rejects for delivery `tag` a trace holds. */
  function Dispositions(trace: seq<Event>, tag: nat): (n: nat) {
    if trace == [] then 0
    else (if SettlesDelivery(trace[0], tag) then 1 else 0) + Dispositions(trace[1..], tag)
  }

  lemma {:induction false} DispositionsAppend(a: seq<Event>, b: seq<Event>, tag: nat)
    ensures Dispositions(a + b, tag) == Dispositions(a, tag) + Dispositions(b, tag)
  {
    if a == [] {
      assert a + b == b;
    } else {
      assert (a + b)[1..] == a[1..] + b;
      DispositionsAppend(a[1..], b, tag);
    }
  }

  /** How many times the user callback was invoked in a trace. */
  function Invocations(trace: seq<Event>): (n: nat) {
    if trace == [] then 0
    else (if trace[0].Invoked? then 1 else 0) + Invocations(trace[1..])
  }

  lemma {:induction false} InvocationsAppend(a: seq<Event>, b: seq<Event>)
    ensures Invocations(a + b) == Invocations(a) + Invocations(b)
  {
    if a == [] {
      assert a + b == b;
    } else {
      assert (a + b)[1..] == a[1..] + b;
      InvocationsAppend(a[1..], b);
    }
  }

  /** How many times `onError` was called in a trace. */
  function ErrorReports(trace: seq<Event>): (n: nat) {
    if trace == [] then 0
    else (if trace[0].ErrorReported? then 1 else 0) + ErrorReports(trace[1..])
  }

  lemma {:induction false} ErrorReportsAppend(a: seq<Event>, b: seq<Event>)
    ensures ErrorReports(a + b) == ErrorReports(a) + ErrorReports(b)
  {
    if a == [] {
      assert a + b == b;
    } else {
      assert (a + b)[1..] == a[1..] + b;
      ErrorReportsAppend(a[1..], b);
    }
  }

  /** Whether every entry of `t` declares a queue, an exchange or a binding, and nothing else. */
  predicate OnlyDeclarations(t: seq<Event>) {
    forall i :: 0 <= i < |t| ==>
      t[i].Issued? && (t[i].op.AssertQueue? || t[i].op.AssertExchange? || t[i].op.BindQueue?)
  }

  /** Whether the callback is called at most once, as the first entry of `t`. */
  predicate CalledOnlyFirst(t: seq<Event>) {
    forall i :: 1 <= i < |t| ==> !t[i].Invoked?
  }

  /** A channel: each operation appends itself to `log` and does nothing else. */
  class Channel {
    var log: seq<Event>

    constructor ()
      ensures log == []
    {
      log := [];
    }

    method AssertQueue(queue: string, options: QueueOptions)
      modifies this
      ensures log == old(log) + [Issued(Op.AssertQueue(queue, options))]
    {
      log := log + [Issued(Op.AssertQueue(queue, options))];
    }

    method AssertExchange(exchange: string, kind: string, options: ExchangeOptions)
      modifies this
      ensures log == old(log) + [Issued(Op.AssertExchange(exchange, kind, options))]
    {
      log := log + [Issued(Op.AssertExchange(exchange, kind, options))];
    }

    method BindQueue(queue: string, exchange: string, pattern: string)
      modifies this
      ensures log == old(log) + [Issued(Op.BindQueue(queue, exchange, pattern))]
    {
      log := log + [Issued(Op.BindQueue(queue, exchange, pattern))];
    }

    method Consume(queue: string, noAck: bool)
      modifies this
      ensures log == old(log) + [Issued(Op.Consume(queue, noAck))]
    {
      log := log + [Issued(Op.Consume(queue, noAck))];
    }

    method Ack(msg: Message, allUpTo: bool)
      modifies this
      ensures log == old(log) + [Issued(Op.Ack(msg.deliveryTag, allUpTo))]
    {
      log := log + [Issued(Op.Ack(msg.deliveryTag, allUpTo))];
    }

    method Reject(msg: Message, requeue: bool)
      modifies this
      ensures log == old(log) + [Issued(Op.Reject(msg.deliveryTag, requeue))]
    {
      log := log + [Issued(Op.Reject(msg.deliveryTag, requeue))];
    }

    method SendToQueue(queue: string, payload: Payload, options: SendOptions)
      modifies this
      ensures log == old(log) + [Issued(Op.SendToQueue(queue, payload, options))]
    {
      log := log + [Issued(Op.SendToQueue(queue, payload, options))];
    }

    method Publish(exchange: string, routingKey: string, payload: Payload, options: SendOptions)
      modifies this
      ensures log == old(log) + [Issued(Op.Publish(exchange, routingKey, payload, options))]
    {
      log := log + [Issued(Op.Publish(exchange, routingKey, payload, options))];
    }

    /** Records a call of the user callback. */
    method NoteInvocation(tag: nat, body: Option<Json>, meta: Meta)
      modifies this
      ensures log == old(log) + [Invoked(tag, body, meta)]
    {
      log := log + [Invoked(tag, body, meta)];
    }

    /** Records a call of `onError`. */
    method NoteError(error: JsError)
      modifies this
      ensures log == old(log) + [ErrorReported(error)]
    {
      log := log + [ErrorReported(error)];
    }
  }
}
