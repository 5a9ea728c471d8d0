/** The part of the JMS and SmallRye JMS API the bridge uses, as values and
    two small classes: a native message is a record, a destination is a named
    queue or topic, and the transacted context keeps a journal of what was
    transmitted, committed and rolled back in its session. */
module Jms {
  import opened Wrappers
  import opened JavaLang

  datatype Destination = Queue(name: string) | Topic(name: string)

  /** A `TextMessage` body or a `BytesMessage` body. */
  datatype Body = TextBody(text: string) | BytesBody(bytes: seq<Int8>)

  /** A native message: its string properties, the JMSType label, the
      correlation id, the delivery mode (`None` is the provider's default), the
      reply-to destination and the body. */
  datatype NativeMessage = NativeMessage(
    properties: map<string, string>,
    jmsType: Option<string>,
    correlationId: Option<string>,
    deliveryMode: Option<Int32>,
    replyTo: Option<Destination>,
    body: Body)

  /** `JMSContext.createTextMessage(text)`: no property and no header set. */
  function CreateTextMessage(text: string): NativeMessage {
    NativeMessage(map[], None, None, None, None, TextBody(text))
  }

  /** `JMSContext.createBytesMessage()`: an empty bytes body. */
  function CreateBytesMessage(): NativeMessage {
    NativeMessage(map[], None, None, None, None, BytesBody([]))
  }

  /** `BytesMessage.writeBytes(bytes)`: the body written so far stays in
      front, the new bytes follow it, and only the body changes. */
  function WriteBytes(message: NativeMessage, bytes: seq<Int8>): (r: NativeMessage)
    requires message.body.BytesBody?
    ensures r.body.BytesBody? && |r.body.bytes| == |message.body.bytes| + |bytes|
    ensures r.body.bytes[..|message.body.bytes|] == message.body.bytes
    ensures r.body.bytes[|message.body.bytes|..] == bytes
    ensures r.(body := message.body) == message
  {
    message.(body := BytesBody(message.body.bytes + bytes))
  }

  /** One entry of SmallRye's outgoing property bag; applying it is a write of
      `value` under `name` into the message's properties. */
  datatype PropertyWrite = PropertyWrite(name: string, value: string)

  /** SmallRye's `JmsProperties`: the `OutgoingJmsProperties` that its builder
      makes, or any other implementation, known only by its class name. */
  datatype JmsProperties =
    | OutgoingJmsProperties(writes: seq<PropertyWrite>)
    | OtherJmsProperties(className: string)

  /** The properties after applying `writes` in order. A later write to a
      name replaces an earlier one. */
  function WriteAll(properties: map<string, string>, writes: seq<PropertyWrite>): map<string, string>
  {
    if writes == [] then properties
    else
      var last := writes[|writes| - 1];
      WriteAll(properties, writes[..|writes| - 1])[last.name := last.value]
  }

  /** The last write to a name decides its value. */
  lemma {:induction false} LastWriteWins(properties: map<string, string>, writes: seq<PropertyWrite>, i: nat)
    requires i < |writes|
    requires forall j :: i < j < |writes| ==> writes[j].name != writes[i].name
    ensures writes[i].name in WriteAll(properties, writes)
    ensures WriteAll(properties, writes)[writes[i].name] == writes[i].value
  {
    if i < |writes| - 1 {
      LastWriteWins(properties, writes[..|writes| - 1], i);
    }
  }

  /** A name no write mentions keeps its presence and its value. */
  lemma {:induction false} UnwrittenNameKept(properties: map<string, string>, writes: seq<PropertyWrite>, name: string)
    requires forall j :: 0 <= j < |writes| ==> writes[j].name != name
    ensures name in WriteAll(properties, writes) <==> name in properties
    ensures name in properties ==> WriteAll(properties, writes)[name] == properties[name]
  {
    if writes != [] {
      UnwrittenNameKept(properties, writes[..|writes| - 1], name);
    }
  }

  /** SmallRye's `IncomingJmsMessageMetadata`, a read-only view of the
      received message. */
  datatype IncomingJmsMessageMetadata = IncomingJmsMessageMetadata(message: NativeMessage)

  datatype Transmission = Transmission(destination: Destination, message: NativeMessage)

  /** What happened in the session, in order. */
  datatype SessionOp = Sent(transmission: Transmission) | Commit | Rollback

  /** The session entries for a run of transmissions. */
  function Sends(ts: seq<Transmission>): seq<SessionOp> {
    seq(|ts|, i requires 0 <= i < |ts| => Sent(ts[i]))
  }

  /** The entries of two runs in a row are the entries of the first, then
      those of the second. */
  lemma SendsConcat(a: seq<Transmission>, b: seq<Transmission>)
    ensures Sends(a + b) == Sends(a) + Sends(b)
  {
  }

  /** A transacted `JMSContext`. */
  class JmsContext {
    var journal: seq<SessionOp>

    constructor ()
      ensures journal == []
    {
      journal := [];
    }

    method Commit()
      modifies this
      ensures journal == old(journal) + [SessionOp.Commit]
    {
      journal := journal + [SessionOp.Commit];
    }

    method Rollback()
      modifies this
      ensures journal == old(journal) + [SessionOp.Rollback]
    {
      journal := journal + [SessionOp.Rollback];
    }

    method CreateProducer() returns (producer: JmsProducer)
      ensures fresh(producer) && producer.context == this
    {
      producer := new JmsProducer(this);
    }
  }

  /** A `JMSProducer`: it transmits through the session of its context. */
  class JmsProducer {
    const context: JmsContext

    constructor (context: JmsContext)
      ensures this.context == context
    {
      this.context := context;
    }

    method Send(destination: Destination, message: NativeMessage)
      modifies context
      ensures context.journal == old(context.journal) + [Sent(Transmission(destination, message))]
    {
      context.journal := context.journal + [Sent(Transmission(destination, message))];
    }
  }
}
