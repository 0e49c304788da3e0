/**
 * The one-shot strategy: declare the primary queue, consume it, call the
 * callback once per delivery and acknowledge whatever the outcome.
 */
module OneShot {
  import opened Wrappers
  import opened JsValues
  import opened JobHandlerInterface
  import opened Amqp
  import opened SafeParse
  import opened Exceptions
  import opened JobHandlers

  /** What `initialize` declares: the primary queue, dead-lettering to `${queueName}.retry`. */
  function OneShotTopology(queueName: string): (t: seq<Event>)
    ensures |t| == 1 && OnlyDeclarations(t) && t[0].op.AssertQueue? && t[0].op.queue == queueName
    ensures t[0].op.queueOptions.durable
  {
    [Issued(AssertQueue(queueName, QueueOptions(true,
      QueueArguments(Some(CreateExchangeName(queueName, Retry)), Some(queueName), None))))]
  }

  /**
   * What `handle` does for one delivery: the callback call, then `onError` if
   * the callback threw and one was supplied, then (the `finally`) an ack
   * unless `noAck`.
   */
  function OneShotHandleEffects(tag: nat, body: Option<Json>, result: CallbackResult,
                                hasOnError: bool, noAck: bool): (e: seq<Event>)
    ensures |e| >= 1 && e[0] == Invoked(tag, body, NoMeta) && CalledOnlyFirst(e)
    ensures !noAck ==> e[|e| - 1] == Issued(Ack(tag, false))
    ensures result.Returned? ==> forall i :: 0 <= i < |e| ==> !e[i].ErrorReported?
  {
    [Invoked(tag, body, NoMeta)]
    + (if result.Threw? && hasOnError then [ErrorReported(result.error)] else [])
    + (if !noAck then [Issued(Ack(tag, false))] else [])
  }

  /**
   * One delivery gets exactly one ack when `noAck` is false and none when it is
   * true, never a reject, whatever the callback did; the callback runs once,
   * without meta, and `onError` runs once exactly when the callback threw and
   * one was supplied.
   */
  lemma OneShotDispositions(tag: nat, body: Option<Json>, result: CallbackResult,
                            hasOnError: bool, noAck: bool)
    ensures var e := OneShotHandleEffects(tag, body, result, hasOnError, noAck);
      && Dispositions(e, tag) == (if noAck then 0 else 1)
      && (forall i :: 0 <= i < |e| && e[i].Issued? ==> e[i].op == Ack(tag, false))
      && Invocations(e) == 1
      && e[0] == Invoked(tag, body, NoMeta)
      && ErrorReports(e) == (if result.Threw? && hasOnError then 1 else 0)
  {
    var call: seq<Event> := [Invoked(tag, body, NoMeta)];
    var report: seq<Event> := if result.Threw? && hasOnError then [ErrorReported(result.error)] else [];
    var ack: seq<Event> := if !noAck then [Issued(Ack(tag, false))] else [];
    assert OneShotHandleEffects(tag, body, result, hasOnError, noAck) == call + report + ack;
    DispositionsAppend(call + report, ack, tag);
    DispositionsAppend(call, report, tag);
    InvocationsAppend(call + report, ack);
    InvocationsAppend(call, report);
    ErrorReportsAppend(call + report, ack);
    ErrorReportsAppend(call, report);
  }

  class OneShotHandler {
    const base: JobHandler
    const noAck: bool

    /** `this.noAck = !!options?.noAck`. */
    constructor (base: JobHandler, noAck: Option<bool>)
      ensures this.base == base && this.noAck == TruthyBool(noAck)
    {
      this.base := base;
      this.noAck := TruthyBool(noAck);
    }

    /** Construction through the base constructor, which rejects a missing channel. */
    static method Create(channel: Channel?, queueName: string, noAck: Option<bool>)
      returns (r: Result<OneShotHandler, JobHandlerException>)
      ensures r.Failure? <==> channel == null
      ensures r.Failure? ==> r.error == ChannelNotFound
      ensures r.Success? ==> fresh(r.value) && fresh(r.value.base) && r.value.base.channel == channel
      ensures r.Success? ==> r.value.base.queueName == queueName && !r.value.base.isInitialize
      ensures r.Success? ==> r.value.noAck == TruthyBool(noAck)
    {
      var b := JobHandler.Create(channel, queueName);
      if b.Failure? {
        return Failure(b.error);
      }
      var h := new OneShotHandler(b.value, noAck);
      return Success(h);
    }

    /** `initialize()`: declares the primary queue, then sets the flag and returns true. */
    method Initialize() returns (ok: bool)
      modifies base.channel, base`isInitialize
      ensures ok && base.isInitialize
      ensures base.channel.log == old(base.channel.log) + OneShotTopology(base.queueName)
    {
      base.channel.AssertQueue(base.queueName, QueueOptions(true,
        QueueArguments(Some(base.SpecifiedName(Retry)), Some(base.RoutingKey()), None)));
      ok := base.Initialize();
    }

    /** `run()`: fails before consuming when not initialized, else consumes with this `noAck`. */
    method Run() returns (r: Outcome<JobHandlerException>)
      modifies base.channel
      ensures r.Fail? <==> !base.isInitialize
      ensures r.Fail? ==> r.error == NotInitialized && base.channel.log == old(base.channel.log)
      ensures r.Pass? ==> base.channel.log == old(base.channel.log) + [Issued(Consume(base.queueName, noAck))]
    {
      r := base.Run();
      if r.Fail? {
        return;
      }
      base.channel.Consume(base.queueName, noAck);
    }

    /** The consume callback: a null delivery is ignored, any other is handled. */
    method OnDelivery(msg: Message?, result: CallbackResult, hasOnError: bool, parse: Parser)
      modifies msg, base.channel
      ensures msg == null ==> base.channel.log == old(base.channel.log)
      ensures msg != null ==> msg.body == MadeBody(msg.content, old(msg.body), parse)
      ensures msg != null ==>
        base.channel.log == old(base.channel.log)
          + OneShotHandleEffects(msg.deliveryTag, MadeBody(msg.content, old(msg.body), parse), result, hasOnError, noAck)
    {
      if msg == null {
        return;
      }
      var _ := Handle(msg, result, hasOnError, parse);
    }

    /**
     * `handle(msg, handler, onError)`: returns the callback's value on success;
     * a throw is reported to `onError` and swallowed.
     */
    method Handle(msg: Message, result: CallbackResult, hasOnError: bool, parse: Parser)
      returns (r: Option<Json>)
      modifies msg, base.channel
      ensures msg.body == MadeBody(msg.content, old(msg.body), parse)
      ensures base.channel.log == old(base.channel.log)
        + OneShotHandleEffects(msg.deliveryTag, msg.body, result, hasOnError, noAck)
      ensures r == (if result.Returned? then Some(result.value) else None)
    {
      var outcome := base.CallHandler(msg, result, NoMeta, parse);
      match outcome {
        case Returned(v) =>
          r := Some(v);
        case Threw(e) =>
          if hasOnError {
            base.channel.NoteError(e);
          }
          r := None;
      }
      // finally
      if !noAck {
        base.channel.Ack(msg, false);
      }
      assert base.channel.log == old(base.channel.log)
        + OneShotHandleEffects(msg.deliveryTag, msg.body, result, hasOnError, noAck);
    }
  }
}
