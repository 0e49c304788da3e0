/**
 * The base job handler: auxiliary naming, message body parsing, and the
 * lifecycle shared by every strategy (initialize before run).
 */
module JobHandlers {
  import opened Wrappers
  import opened JsValues
  import opened JobHandlerInterface
  import opened Amqp
  import opened SafeParse
  import opened Exceptions

  /** `createExchangeName(name, type)`: `${name}.${type}`. */
  function CreateExchangeName(name: string, kind: string): (r: string)
    ensures |r| == |name| + 1 + |kind|
    ensures r[..|name|] == name && r[|name|] == '.' && r[|name| + 1..] == kind
  {
    name + "." + kind
  }

  /** `createQueueName(name, type)`: the same `${name}.${type}`. */
  function CreateQueueName(name: string, kind: string): (r: string)
    ensures |r| == |name| + 1 + |kind|
    ensures r[..|name|] == name && r[|name|] == '.' && r[|name| + 1..] == kind
  {
    name + "." + kind
  }

  /** Names built from one base and different suffixes are different. */
  lemma SuffixedNamesDiffer(name: string, sep: string, kind1: string, kind2: string)
    requires kind1 != kind2
    ensures name + sep + kind1 != name + sep + kind2
  {
    var p := name + sep;
    assert (p + kind1)[|p|..] == kind1;
    assert (p + kind2)[|p|..] == kind2;
  }

  /**
   * `parseBufferToJSON(buf)`: null for a missing buffer or one whose text is
   * empty, otherwise `safeParseJSON` of the text.
   */
  function ParseBufferToJSON(buf: Option<string>, parse: Parser): (r: Json)
    ensures buf.None? || buf == Some("") ==> r == JNull
    ensures buf.Some? && buf.value != "" ==> r == SafeParseJSON(buf, parse)
  {
    if buf.None? || buf.value == "" then JNull else SafeParseJSON(buf, parse)
  }

  /** `JSONtoBuffer(json)`: the text JSON.stringify produces, as the buffer's content. */
  function JSONtoBuffer(json: Json, stringify: Json -> string): (buf: string) {
    stringify(json)
  }

  /**
   * Reading back a serialised value yields it, provided the parser inverts the
   * serialiser on it (a fact about JSON.parse and JSON.stringify, not about
   * this code) and the text is not empty.
   */
  lemma BufferRoundTrip(x: Json, parse: Parser, stringify: Json -> string)
    requires parse(stringify(x)) == Some(x) && stringify(x) != ""
    ensures ParseBufferToJSON(Some(JSONtoBuffer(x, stringify)), parse) == x
  {
  }

  /** A non-empty body that does not parse is kept as that very string. */
  lemma UnparsableBodyKept(text: string, parse: Parser)
    requires text != "" && parse(text).None?
    ensures ParseBufferToJSON(Some(text), parse) == JString(text)
  {
  }

  /** The body `makeMessage` leaves on a message: parsed when content is present, else unchanged. */
  function MadeBody(content: Option<string>, body: Option<Json>, parse: Parser): (r: Option<Json>) {
    if content.Some? then Some(ParseBufferToJSON(content, parse)) else body
  }

  /** The handler state every strategy has: its channel, its queue and the initialized flag. */
  class JobHandler {
    const channel: Channel
    const queueName: string
    var isInitialize: bool

    constructor (channel: Channel, queueName: string)
      ensures this.channel == channel && this.queueName == queueName
      ensures !isInitialize
    {
      this.channel := channel;
      this.queueName := queueName;
      isInitialize := false;
    }

    /** The constructor's check: a missing channel throws "Channel not found.". */
    static method Create(channel: Channel?, queueName: string) returns (r: Result<JobHandler, JobHandlerException>)
      ensures r.Failure? <==> channel == null
      ensures r.Failure? ==> r.error == ChannelNotFound
      ensures r.Success? ==> fresh(r.value) && r.value.channel == channel
      ensures r.Success? ==> r.value.queueName == queueName && !r.value.isInitialize
    {
      if channel == null {
        return Failure(ChannelNotFound);
      }
      var h := new JobHandler(channel, queueName);
      return Success(h);
    }

    /** `initialize()`: sets the flag and returns true; a second call changes nothing. */
    method Initialize() returns (ok: bool)
      modifies this`isInitialize
      ensures ok && isInitialize
    {
      isInitialize := true;
      return true;
    }

    /** `run()`: fails exactly when the handler has not been initialized, and has no effect. */
    method Run() returns (r: Outcome<JobHandlerException>)
      ensures r.Fail? <==> !isInitialize
      ensures r.Fail? ==> r.error == NotInitialized
    {
      if !isInitialize {
        return Fail(NotInitialized);
      }
      return Pass;
    }

    /** `_getRoutingKey()`: the queue name. */
    function RoutingKey(): (r: string) {
      queueName
    }

    /** `_getSpecifiedName(type)`: `${queueName}.${type}`. */
    function SpecifiedName(kind: string): (r: string)
      ensures |r| == |queueName| + 1 + |kind|
      ensures r[..|queueName|] == queueName && r[|queueName|] == '.' && r[|queueName| + 1..] == kind
    {
      CreateExchangeName(queueName, kind)
    }

    /** `makeMessage(msg)`: the same message, with `body` set only when content is present. */
    method MakeMessage(msg: Message, parse: Parser) returns (message: Message)
      modifies msg
      ensures message == msg
      ensures msg.body == MadeBody(msg.content, old(msg.body), parse)
    {
      message := msg;
      if msg.content.Some? {
        message.body := Some(ParseBufferToJSON(msg.content, parse));
      }
    }

    /**
     * `callHandler(msg, handler, meta)`: makes the message, then invokes the
     * callback with it and `meta` unchanged; the callback's outcome is `result`.
     */
    method CallHandler(msg: Message, result: CallbackResult, meta: Meta, parse: Parser)
      returns (r: CallbackResult)
      modifies msg, channel
      ensures r == result
      ensures msg.body == MadeBody(msg.content, old(msg.body), parse)
      ensures channel.log == old(channel.log) + [Invoked(msg.deliveryTag, msg.body, meta)]
    {
      var message := MakeMessage(msg, parse);
      channel.NoteInvocation(message.deliveryTag, message.body, meta);
      return result;
    }

    /**
     * The base `handle(msg, handler, onError)`: calls the callback with no
     * meta and no ack or reject; a throw propagates.
     */
    method Handle(msg: Message, result: CallbackResult, parse: Parser) returns (r: CallbackResult)
      modifies msg, channel
      ensures r == result
      ensures msg.body == MadeBody(msg.content, old(msg.body), parse)
      ensures channel.log == old(channel.log) + [Invoked(msg.deliveryTag, msg.body, NoMeta)]
    {
      r := CallHandler(msg, result, NoMeta, parse);
    }
  }
}
