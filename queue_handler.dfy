/**
 * The plain queue consumer: call the handler with the raw delivery, ack on
 * success and reject with requeue on failure.
 */
module Queue {
  import opened Wrappers
  import opened JsValues
  import opened JobHandlerInterface
  import opened Amqp

  /** What the consume callback issues for one non-null delivery. */
  function QueueHandleEffects(tag: nat, body: Option<Json>, result: CallbackResult): (e: seq<Event>)
    ensures |e| == 2 && e[0] == Invoked(tag, body, NoMeta)
    ensures e[1].Issued? && (e[1].op.Ack? || e[1].op.Reject?) && e[1].op.tag == tag
    ensures e[1].op.Ack? <==> result.Returned?
    ensures e[1].op.Reject? ==> e[1].op.requeue
  {
    [Invoked(tag, body, NoMeta)]
    + if result.Returned? then [Issued(Ack(tag, false))] else [Issued(Reject(tag, true))]
  }

  /**
   * Each non-null delivery is settled exactly once: an ack after a handler that
   * returned, a reject with requeue after one that threw.
   */
  lemma QueueDispositions(tag: nat, body: Option<Json>, result: CallbackResult)
    ensures var e := QueueHandleEffects(tag, body, result);
      && Dispositions(e, tag) == 1
      && Invocations(e) == 1
      && |e| == 2
      && (result.Returned? ==> e[1] == Issued(Ack(tag, false)))
      && (result.Threw? ==> e[1] == Issued(Reject(tag, true)))
  {
    var call: seq<Event> := [Invoked(tag, body, NoMeta)];
    var settle: seq<Event> := if result.Returned? then [Issued(Ack(tag, false))] else [Issued(Reject(tag, true))];
    assert call[1..] == [] && settle[1..] == [];
    DispositionsAppend(call, settle, tag);
    InvocationsAppend(call, settle);
  }

  class QueueHandler {
    const channel: Channel
    const queueName: string

    /** The handler function itself is represented by its outcome on each delivery. */
    constructor (channel: Channel, queueName: string)
      ensures this.channel == channel && this.queueName == queueName
    {
      this.channel := channel;
      this.queueName := queueName;
    }

    /** `handle()`: starts consuming the queue with `noAck: false`. */
    method Handle()
      modifies channel
      ensures channel.log == old(channel.log) + [Issued(Consume(queueName, false))]
    {
      channel.Consume(queueName, false);
    }

    /** The consume callback: a null delivery is ignored without ack or reject. */
    method OnDelivery(msg: Message?, result: CallbackResult)
      modifies channel
      ensures msg == null ==> channel.log == old(channel.log)
      ensures msg != null ==> channel.log == old(channel.log) + QueueHandleEffects(msg.deliveryTag, msg.body, result)
    {
      if msg == null {
        return;
      }
      channel.NoteInvocation(msg.deliveryTag, msg.body, NoMeta);
      match result {
        case Returned(_) =>
          channel.Ack(msg, false);
        case Threw(_) =>
          channel.Reject(msg, true);
      }
    }
  }
}
