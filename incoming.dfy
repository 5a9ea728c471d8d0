/** `IncomingJmsTxMessage`: the envelope around one received message, with its
    type resolution, payload decoding, the commit/rollback protocol on the
    owning transacted context, and the outbound path that encodes application
    messages and sends them through the same context. */
module Incoming {
  import opened Wrappers
  import opened JavaLang
  import opened Payloads
  import opened Jms
  import opened Outgoing

  /** The string property that carries the payload's class name. */
  const MESSAGE_PROPERTY_CLASSNAME: string := "_classname"

  /** What goes wrong inside the try block of `send`. */
  datatype Cause =
    | NullPayload                          // payload.getClass() on a null payload
    | JsonEncodeFailed                     // json.toJson threw; createJmsMessage wraps it
    | NullType                             // type.toLowerCase() on a null type
    | UnknownDestinationType(kind: string) // getDestination's IllegalArgumentException
    | InvalidProperties(className: string) // properties that are not OutgoingJmsProperties

  /** The exceptions the envelope's operations throw. */
  datatype Error =
    | UnresolvedType(className: string)    // constructor: IllegalArgumentException
    | BodyNotText                          // getPayload: IllegalStateException around getBody
    | NumberFormat                         // convert: a valueOf rejected the text
    | JsonDecodeFailed                     // convert: json.fromJson threw
    | UnwrapUnsupported                    // unwrap: IllegalArgumentException
    | MissingMetadata                      // send: IllegalStateException, before the try block
    | MissingDestination                   // send: IllegalStateException, before the try block
    | SendFailed(cause: Cause)             // send: IllegalStateException("Error send the message!", cause)

  /** The thread's context class loader (absent when it is null) and the
      bridge's own class loader, each a partial map from class name to class. */
  datatype ClassLoaders = ClassLoaders(contextLoader: Option<map<string, JType>>, ownLoader: map<string, JType>)

  /** What `ClassLoader.loadClass(n)` may return: a class the JVM can produce,
      named n, and not an array class, whose names a class loader refuses. */
  predicate LoadableAs(n: string, t: JType) {
    ClassName(t) == n && ValidClass(t) && !t.ByteArrayT?
  }

  /** Loaders that give, for every name they know, a class they may load under
      that name. */
  predicate WellFormedLoaders(loaders: ClassLoaders) {
    && (loaders.contextLoader.Some? ==>
          forall n :: n in loaders.contextLoader.value ==> LoadableAs(n, loaders.contextLoader.value[n]))
    && forall n :: n in loaders.ownLoader ==> LoadableAs(n, loaders.ownLoader[n])
  }

  /** An application message handed to `send`: its payload and the outgoing
      metadata it carries, if any. */
  datatype OutgoingMessage = OutgoingMessage(payload: Value, metadata: Option<OutgoingJmsTxMessageMetadata>)

  // ---------------------------------------------------------------------------
  // Inbound type resolution

  /** The class name the received message declares: the `_classname` property
      when it is set, otherwise the JMSType label. */
  function TypeTag(message: NativeMessage): (tag: Option<string>)
    ensures tag.None? <==> MESSAGE_PROPERTY_CLASSNAME !in message.properties && message.jmsType.None?
    ensures MESSAGE_PROPERTY_CLASSNAME in message.properties ==> tag == Some(message.properties[MESSAGE_PROPERTY_CLASSNAME])
    ensures MESSAGE_PROPERTY_CLASSNAME !in message.properties ==> tag == message.jmsType
  {
    if MESSAGE_PROPERTY_CLASSNAME in message.properties then Some(message.properties[MESSAGE_PROPERTY_CLASSNAME])
    else message.jmsType
  }

  /** `load`: the context loader first, when there is one; the bridge's own
      loader when the context loader is null or does not know the name. */
  function Load(loaders: ClassLoaders, className: string): (r: Option<JType>)
    ensures r.Some? <==> (loaders.contextLoader.Some? && className in loaders.contextLoader.value) || className in loaders.ownLoader
    ensures loaders.contextLoader.Some? && className in loaders.contextLoader.value ==> r == Some(loaders.contextLoader.value[className])
    ensures r.Some? && (loaders.contextLoader.None? || className !in loaders.contextLoader.value) ==> r == Some(loaders.ownLoader[className])
    ensures WellFormedLoaders(loaders) && r.Some? ==> ClassName(r.value) == className
  {
    if loaders.contextLoader.Some? && className in loaders.contextLoader.value then Some(loaders.contextLoader.value[className])
    else if className in loaders.ownLoader then Some(loaders.ownLoader[className])
    else None
  }

  /** Well-formed loaders that know a class's name load that very class. */
  lemma LoadFindsClass(loaders: ClassLoaders, clazz: JType)
    requires WellFormedLoaders(loaders) && ValidClass(clazz)
    requires Load(loaders, ClassName(clazz)).Some?
    ensures Load(loaders, ClassName(clazz)) == Some(clazz)
  {
    var loaded := Load(loaders, ClassName(clazz)).value;
    assert ValidClass(loaded);
    ClassNameIdentifies(loaded, clazz);
  }

  /** The class the constructor resolves: none for an untagged message, the
      loaded class for a tagged one, and the constructor's failure when no
      loader knows the tag. */
  function ResolveClass(loaders: ClassLoaders, message: NativeMessage): (r: Result<Option<JType>, Error>)
    ensures r.Failure? <==> TypeTag(message).Some? && Load(loaders, TypeTag(message).value).None?
    ensures r.Failure? ==> r.error == UnresolvedType(TypeTag(message).value)
    ensures r.Success? ==> (r.value.None? <==> TypeTag(message).None?)
    ensures r.Success? && r.value.Some? ==> Load(loaders, TypeTag(message).value) == r.value
  {
    match TypeTag(message)
    case None => Success(None)
    case Some(className) =>
      match Load(loaders, className)
      case None => Failure(UnresolvedType(className))
      case Some(clazz) => Success(Some(clazz))
  }

  // ---------------------------------------------------------------------------
  // Payload decoding

  /** The classes `convert` has an arm of its own for. */
  predicate HasConvertArm(clazz: JType) {
    clazz.IntegerT? || clazz.LongT? || clazz.DoubleT? || clazz.FloatT? || clazz.BooleanT?
    || clazz.ShortT? || clazz.ByteT? || clazz.StringT?
  }

  /** `convert`: the text body read as a value of the resolved class. The
      scalar arms give a value of exactly that class: the integer classes
      accept exactly the decimal texts in their range, `Double` and `Float`
      what the JDK's parsers accept, `Boolean` is "true" ignoring case, and
      `String` is the text itself; every other class goes to JSON. */
  function Convert(json: Serializers, clazz: JType, value: string): (r: Result<Value, Error>)
    ensures HasConvertArm(clazz) && r.Success? ==> !r.value.NullV? && ClassOf(r.value) == clazz
    ensures clazz.BooleanT? || clazz.StringT? ==> r.Success?
    ensures r.Failure? ==> r.error == (if HasConvertArm(clazz) then NumberFormat else JsonDecodeFailed)
    ensures !HasConvertArm(clazz) ==> (r.Success? <==> json.fromJson(value, clazz).Some?)
    ensures !HasConvertArm(clazz) && r.Success? ==> r.value == json.fromJson(value, clazz).value
    ensures clazz.IntegerT? ==> (r.Success? <==> ParseDecimal(value, INT_MIN, INT_MAX).Some?)
    ensures clazz.IntegerT? && r.Success? ==> r.value == IntegerV(ParseDecimal(value, INT_MIN, INT_MAX).value)
    ensures clazz.LongT? ==> (r.Success? <==> ParseDecimal(value, LONG_MIN, LONG_MAX).Some?)
    ensures clazz.LongT? && r.Success? ==> r.value == LongV(ParseDecimal(value, LONG_MIN, LONG_MAX).value)
    ensures clazz.ShortT? ==> (r.Success? <==> ParseDecimal(value, SHORT_MIN, SHORT_MAX).Some?)
    ensures clazz.ShortT? && r.Success? ==> r.value == ShortV(ParseDecimal(value, SHORT_MIN, SHORT_MAX).value)
    ensures clazz.ByteT? ==> (r.Success? <==> ParseDecimal(value, BYTE_MIN, BYTE_MAX).Some?)
    ensures clazz.ByteT? && r.Success? ==> r.value == ByteV(ParseDecimal(value, BYTE_MIN, BYTE_MAX).value)
    ensures clazz.DoubleT? ==> (r.Success? <==> json.parseDouble(value).Some?)
    ensures clazz.DoubleT? && r.Success? ==> r.value == DoubleV(json.parseDouble(value).value)
    ensures clazz.FloatT? ==> (r.Success? <==> json.parseFloat(value).Some?)
    ensures clazz.FloatT? && r.Success? ==> r.value == FloatV(json.parseFloat(value).value)
    ensures clazz.BooleanT? ==> r == Success(BooleanV(EqualsIgnoreAsciiCase(value, "true")))
    ensures clazz.StringT? ==> r == Success(StringV(value))
  {
    match clazz
    case IntegerT =>
      (match ParseDecimal(value, INT_MIN, INT_MAX)
       case Some(n) => Success(IntegerV(n))
       case None => Failure(NumberFormat))
    case LongT =>
      (match ParseDecimal(value, LONG_MIN, LONG_MAX)
       case Some(n) => Success(LongV(n))
       case None => Failure(NumberFormat))
    case DoubleT =>
      (match json.parseDouble(value)
       case Some(t) => Success(DoubleV(t))
       case None => Failure(NumberFormat))
    case FloatT =>
      (match json.parseFloat(value)
       case Some(t) => Success(FloatV(t))
       case None => Failure(NumberFormat))
    case BooleanT => Success(BooleanV(ParseBoolean(value)))
    case ShortT =>
      (match ParseDecimal(value, SHORT_MIN, SHORT_MAX)
       case Some(n) => Success(ShortV(n))
       case None => Failure(NumberFormat))
    case ByteT =>
      (match ParseDecimal(value, BYTE_MIN, BYTE_MAX)
       case Some(n) => Success(ByteV(n))
       case None => Failure(NumberFormat))
    case StringT => Success(StringV(value))
    case _ =>
      (match json.fromJson(value, clazz)
       case Some(v) => Success(v)
       case None => Failure(JsonDecodeFailed))
  }

  /** `getPayload`: an untyped message gives its raw body (the text as a
      `String`, the bytes as a `byte[]`) and never fails; a typed one reads its
      body as text, which a bytes body refuses, and converts it. Nothing is
      cached: each call decodes the body again. */
  function Decode(json: Serializers, clazz: Option<JType>, body: Body): (r: Result<Value, Error>)
    ensures clazz.None? ==> r.Success?
    ensures clazz.None? && body.TextBody? ==> r.value == StringV(body.text)
    ensures clazz.None? && body.BytesBody? ==> r.value == ByteArrayV(body.bytes)
    ensures clazz.Some? && body.BytesBody? ==> r == Failure(BodyNotText)
    ensures clazz.Some? && body.TextBody? ==> r == Convert(json, clazz.value, body.text)
  {
    match clazz
    case Some(c) =>
      (match body
       case TextBody(text) => Convert(json, c, text)
       case BytesBody(_) => Failure(BodyNotText))
    case None =>
      (match body
       case TextBody(text) => Success(StringV(text))
       case BytesBody(bytes) => Success(ByteArrayV(bytes)))
  }

  // ---------------------------------------------------------------------------
  // Payload encoding

  /** The class names `isPrimitiveBoxed` compares with. */
  const BOXED_CLASS_NAMES: set<string> := {
    "java.lang.Boolean", "java.lang.Integer", "java.lang.Byte", "java.lang.Double",
    "java.lang.Float", "java.lang.Short", "java.lang.Character", "java.lang.Long"}

  /** `isPrimitiveBoxed`: the eight wrapper classes, which for a class the JVM
      can produce is a test of its name. */
  predicate IsPrimitiveBoxed(c: JType): (b: bool)
    ensures ValidClass(c) ==> (b <==> ClassName(c) in BOXED_CLASS_NAMES)
  {
    c.BooleanT? || c.IntegerT? || c.ByteT? || c.DoubleT? || c.FloatT? || c.ShortT? || c.CharacterT? || c.LongT?
  }

  /** The first test of `createJmsMessage`: a `String` or a boxed scalar. */
  predicate EncodesAsText(payload: Value) {
    !payload.NullV? && (payload.StringV? || IsPrimitiveBoxed(ClassOf(payload)))
  }

  /** The `_classname` property and the JMSType label, both set to `className`. */
  function Tagged(message: NativeMessage, className: string): NativeMessage {
    message.(properties := message.properties[MESSAGE_PROPERTY_CLASSNAME := className], jmsType := Some(className))
  }

  /** What `createJmsMessage` builds. A string or boxed scalar becomes a text
      message holding its `toString()`; a `byte[]` becomes a bytes message
      holding the bytes, untagged; anything else becomes a text message holding
      its JSON. Every text message carries the class name both as `_classname`
      and as its JMSType label, and nothing else is set. */
  function Encode(json: Serializers, payload: Value): (r: Result<NativeMessage, Cause>)
    ensures r.Failure? <==> payload.NullV? || (!EncodesAsText(payload) && !payload.ByteArrayV? && json.toJson(payload).None?)
    ensures r.Failure? ==> r.error == (if payload.NullV? then NullPayload else JsonEncodeFailed)
    ensures r.Success? ==> r.value.correlationId.None? && r.value.deliveryMode.None? && r.value.replyTo.None?
    ensures payload.ByteArrayV? ==> r.Success? && r.value.body == BytesBody(payload.bytes)
    ensures payload.ByteArrayV? ==> r.value.properties == map[] && r.value.jmsType.None?
    ensures r.Success? && !payload.ByteArrayV? ==>
      && r.value.properties == map[MESSAGE_PROPERTY_CLASSNAME := ClassName(ClassOf(payload))]
      && r.value.jmsType == Some(ClassName(ClassOf(payload)))
      && r.value.body.TextBody?
    ensures EncodesAsText(payload) ==> IsScalar(payload) && r.Success? && r.value.body.text == ToString(payload)
    ensures r.Success? && !EncodesAsText(payload) && !payload.ByteArrayV? ==> r.value.body.text == json.toJson(payload).value
  {
    if payload.NullV? then Failure(NullPayload)
    else if EncodesAsText(payload) then
      Success(Tagged(CreateTextMessage(ToString(payload)), ClassName(ClassOf(payload))))
    else if payload.ByteArrayV? then
      Success(WriteBytes(CreateBytesMessage(), payload.bytes))
    else
      match json.toJson(payload)
      case None => Failure(JsonEncodeFailed)
      case Some(text) => Success(Tagged(CreateTextMessage(text), ClassName(ClassOf(payload))))
  }

  /** `createJmsMessage`, setter by setter. */
  method CreateJmsMessage(json: Serializers, payload: Value) returns (r: Result<NativeMessage, Cause>)
    ensures r == Encode(json, payload)
  {
    if payload.NullV? {
      return Failure(NullPayload);
    }
    var outgoing: NativeMessage;
    var className := ClassName(ClassOf(payload));
    if EncodesAsText(payload) {
      outgoing := CreateTextMessage(ToString(payload));
      outgoing := outgoing.(properties := outgoing.properties[MESSAGE_PROPERTY_CLASSNAME := className]);
      outgoing := outgoing.(jmsType := Some(className));
    } else if payload.ByteArrayV? {
      outgoing := CreateBytesMessage();
      outgoing := WriteBytes(outgoing, payload.bytes);
    } else {
      var text := json.toJson(payload);
      if text.None? {
        return Failure(JsonEncodeFailed);
      }
      outgoing := CreateTextMessage(text.value);
      outgoing := outgoing.(jmsType := Some(className));
      outgoing := outgoing.(properties := outgoing.properties[MESSAGE_PROPERTY_CLASSNAME := className]);
    }
    return Success(outgoing);
  }

  // ---------------------------------------------------------------------------
  // Destinations

  predicate IsDestinationKind(destinationType: string) {
    ToLowerAscii(destinationType) == QUEUE || ToLowerAscii(destinationType) == TOPIC
  }

  /** `getDestination`: the type, lower-cased, picks a queue or a topic of the
      given name; a null type and any other word fail. */
  function GetDestination(name: string, destinationType: Option<string>): (r: Result<Destination, Cause>)
    ensures r.Success? <==> destinationType.Some? && IsDestinationKind(destinationType.value)
    ensures r.Success? ==> r.value.name == name
    ensures r.Success? ==> (r.value.Queue? <==> ToLowerAscii(destinationType.value) == QUEUE)
    ensures destinationType.None? ==> r == Failure(NullType)
    ensures r.Failure? && destinationType.Some? ==> r.error == UnknownDestinationType(destinationType.value)
  {
    match destinationType
    case None => Failure(NullType)
    case Some(t) =>
      if ToLowerAscii(t) == QUEUE then Success(Queue(name))
      else if ToLowerAscii(t) == TOPIC then Success(Topic(name))
      else Failure(UnknownDestinationType(t))
  }

  // ---------------------------------------------------------------------------
  // Outbound dispatch

  /** The check before the try block: a destination name that is not blank. */
  predicate HasDestination(md: OutgoingJmsTxMessageMetadata) {
    md.destination.Some? && !IsBlank(md.destination.value)
  }

  /** A reply-to name that is set and not empty (blank is not tested). */
  predicate HasReplyTo(md: OutgoingJmsTxMessageMetadata) {
    md.replyTo.Some? && |md.replyTo.value| > 0
  }

  function ApplyProperties(message: NativeMessage, properties: Option<JmsProperties>): Result<NativeMessage, Cause> {
    match properties
    case None => Success(message)
    case Some(OtherJmsProperties(className)) => Failure(InvalidProperties(className))
    case Some(OutgoingJmsProperties(writes)) => Success(message.(properties := WriteAll(message.properties, writes)))
  }

  function ApplyReplyTo(message: NativeMessage, md: OutgoingJmsTxMessageMetadata): Result<NativeMessage, Cause> {
    if HasReplyTo(md) then
      var replyTo :- GetDestination(md.replyTo.value, md.destinationType);
      Success(message.(replyTo := Some(replyTo)))
    else Success(message)
  }

  /** The try block of `send`, up to the transmission: encode, then correlation
      id, delivery mode, type label, reply-to and properties in this order, then
      the destination. */
  function Prepare(json: Serializers, payload: Value, md: OutgoingJmsTxMessageMetadata): Result<Transmission, Cause>
    requires md.destination.Some?
  {
    var encoded :- Encode(json, payload);
    var m1 := if md.correlationId.Some? then encoded.(correlationId := md.correlationId) else encoded;
    var m2 := if md.deliveryMode != UNSET_DELIVERY_MODE then m1.(deliveryMode := Some(md.deliveryMode)) else m1;
    var m3 := if md.destinationType.Some? then m2.(jmsType := md.destinationType) else m2;
    var m4 :- ApplyReplyTo(m3, md);
    var m5 :- ApplyProperties(m4, md.properties);
    var destination :- GetDestination(md.destination.value, md.destinationType);
    Success(Transmission(destination, m5))
  }

  /** Everything a send needs to succeed. */
  predicate Deliverable(json: Serializers, payload: Value, md: OutgoingJmsTxMessageMetadata) {
    && HasDestination(md)
    && Encode(json, payload).Success?
    && md.destinationType.Some? && IsDestinationKind(md.destinationType.value)
    && !(md.properties.Some? && md.properties.value.OtherJmsProperties?)
  }

  /** What the single-message `send` hands to the producer, or the exception
      it throws. Missing metadata and a missing or blank destination fail
      before anything is encoded; every other failure is a `SendFailed`. A send
      succeeds exactly when the message is deliverable. */
  function Dispatch(json: Serializers, message: OutgoingMessage): (r: Result<Transmission, Error>)
    ensures message.metadata.None? ==> r == Failure(MissingMetadata)
    ensures message.metadata.Some? && !HasDestination(message.metadata.value) ==> r == Failure(MissingDestination)
    ensures message.metadata.Some? && HasDestination(message.metadata.value) && r.Failure? ==> r.error.SendFailed?
    ensures r.Success? <==> message.metadata.Some? && Deliverable(json, message.payload, message.metadata.value)
  {
    if message.metadata.None? then Failure(MissingMetadata)
    else if !HasDestination(message.metadata.value) then Failure(MissingDestination)
    else
      match Prepare(json, message.payload, message.metadata.value)
      case Success(t) => Success(t)
      case Failure(cause) => Failure(SendFailed(cause))
  }

  /** The `forEach` over the property bag: one write per entry, in order. */
  method ApplyPropertyWrites(outgoing: NativeMessage, writes: seq<PropertyWrite>) returns (applied: NativeMessage)
    ensures applied == outgoing.(properties := WriteAll(outgoing.properties, writes))
  {
    applied := outgoing;
    for i := 0 to |writes|
      invariant applied == outgoing.(properties := WriteAll(outgoing.properties, writes[..i]))
    {
      assert writes[..i + 1][..i] == writes[..i];
      applied := applied.(properties := applied.properties[writes[i].name := writes[i].value]);
    }
    assert writes[..|writes|] == writes;
  }

  /** The single-message `send`: validate, build the native message step by
      step, resolve the destination and transmit it last. A failure transmits
      nothing. */
  method SendMessage(json: Serializers, producer: JmsProducer, message: OutgoingMessage) returns (r: Outcome<Error>)
    modifies producer.context
    ensures Dispatch(json, message).Success? ==>
      r == Pass && producer.context.journal == old(producer.context.journal) + [Sent(Dispatch(json, message).value)]
    ensures Dispatch(json, message).Failure? ==>
      r == Fail(Dispatch(json, message).error) && producer.context.journal == old(producer.context.journal)
  {
    if message.metadata.None? {
      return Fail(MissingMetadata);
    }
    var md := message.metadata.value;
    if md.destination.None? || IsBlank(md.destination.value) {
      return Fail(MissingDestination);
    }
    var created := CreateJmsMessage(json, message.payload);
    if created.Failure? {
      return Fail(SendFailed(created.error));
    }
    var outgoing := created.value;
    if md.correlationId.Some? {
      outgoing := outgoing.(correlationId := md.correlationId);
    }
    if md.deliveryMode != UNSET_DELIVERY_MODE {
      outgoing := outgoing.(deliveryMode := Some(md.deliveryMode));
    }
    if md.destinationType.Some? {
      outgoing := outgoing.(jmsType := md.destinationType);
    }
    if md.replyTo.Some? && |md.replyTo.value| > 0 {
      var replyTo := GetDestination(md.replyTo.value, md.destinationType);
      if replyTo.Failure? {
        return Fail(SendFailed(replyTo.error));
      }
      outgoing := outgoing.(replyTo := Some(replyTo.value));
    }
    if md.properties.Some? {
      if md.properties.value.OtherJmsProperties? {
        return Fail(SendFailed(InvalidProperties(md.properties.value.className)));
      }
      outgoing := ApplyPropertyWrites(outgoing, md.properties.value.writes);
    }
    var destination := GetDestination(md.destination.value, md.destinationType);
    if destination.Failure? {
      return Fail(SendFailed(destination.error));
    }
    producer.Send(destination.value, outgoing);
    return Pass;
  }

  /** The transmissions of a batch and how it ended. */
  datatype Batch = Batch(sent: seq<Transmission>, outcome: Outcome<Error>)

  /** The stream `send`: the messages in order, stopping at the first failure;
      what was sent before it stays sent. */
  function DispatchAll(json: Serializers, messages: seq<OutgoingMessage>): (b: Batch)
    ensures |b.sent| <= |messages|
    ensures b.outcome.Pass? <==> |b.sent| == |messages|
    decreases |messages|
  {
    if messages == [] then Batch([], Pass)
    else
      match Dispatch(json, messages[0])
      case Failure(e) => Batch([], Fail(e))
      case Success(t) =>
        var rest := DispatchAll(json, messages[1..]);
        Batch([t] + rest.sent, rest.outcome)
  }

  /** What a stream transmits: the `Dispatch` results of its leading
      messages, in order, and when it fails, the failure of the first message
      not sent. */
  lemma {:induction false} DispatchAllSends(json: Serializers, messages: seq<OutgoingMessage>)
    ensures forall i :: 0 <= i < |DispatchAll(json, messages).sent| ==>
      Dispatch(json, messages[i]) == Success(DispatchAll(json, messages).sent[i])
    ensures DispatchAll(json, messages).outcome.Fail? ==>
      Dispatch(json, messages[|DispatchAll(json, messages).sent|]) == Failure(DispatchAll(json, messages).outcome.error)
    decreases |messages|
  {
    if messages != [] && Dispatch(json, messages[0]).Success? {
      DispatchAllSends(json, messages[1..]);
      assert forall i :: 1 <= i < |messages| ==> messages[i] == messages[1..][i - 1];
    }
  }

  /** A stream whose message `i` is sent: the stream from `i` is that
      transmission followed by the stream from `i + 1`. */
  lemma DispatchAllFrom(json: Serializers, messages: seq<OutgoingMessage>, i: nat)
    requires i < |messages| && Dispatch(json, messages[i]).Success?
    ensures DispatchAll(json, messages[i..]) ==
      Batch([Dispatch(json, messages[i]).value] + DispatchAll(json, messages[i + 1..]).sent,
            DispatchAll(json, messages[i + 1..]).outcome)
  {
    var rest := messages[i..];
    assert rest[0] == messages[i];
    assert rest[1..] == messages[i + 1..];
  }

  /** The batch after `done` was sent for the messages before `i`, when
      message `i` is sent too. */
  lemma BatchAdvance(json: Serializers, messages: seq<OutgoingMessage>, i: nat, done: seq<Transmission>)
    requires i < |messages| && Dispatch(json, messages[i]).Success?
    requires DispatchAll(json, messages).sent == done + DispatchAll(json, messages[i..]).sent
    requires DispatchAll(json, messages).outcome == DispatchAll(json, messages[i..]).outcome
    ensures DispatchAll(json, messages).sent ==
      (done + [Dispatch(json, messages[i]).value]) + DispatchAll(json, messages[i + 1..]).sent
    ensures DispatchAll(json, messages).outcome == DispatchAll(json, messages[i + 1..]).outcome
  {
    DispatchAllFrom(json, messages, i);
    var t := Dispatch(json, messages[i]).value;
    var tail := DispatchAll(json, messages[i + 1..]).sent;
    assert done + ([t] + tail) == (done + [t]) + tail;
  }

  /** The batch after `done` was sent for the messages before `i`, when
      message `i` fails. */
  lemma BatchStop(json: Serializers, messages: seq<OutgoingMessage>, i: nat, done: seq<Transmission>)
    requires i < |messages| && Dispatch(json, messages[i]).Failure?
    requires DispatchAll(json, messages).sent == done + DispatchAll(json, messages[i..]).sent
    requires DispatchAll(json, messages).outcome == DispatchAll(json, messages[i..]).outcome
    ensures DispatchAll(json, messages) == Batch(done, Fail(Dispatch(json, messages[i]).error))
  {
    assert messages[i..][0] == messages[i];
  }

  /** The journal after one more transmission. */
  lemma JournalAppend(journal: seq<SessionOp>, ts: seq<Transmission>, t: Transmission)
    ensures (journal + Sends(ts)) + [Sent(t)] == journal + Sends(ts + [t])
  {
    SendsConcat(ts, [t]);
  }

  // ---------------------------------------------------------------------------
  // The envelope

  /** What `unwrap` may be asked for: `javax.jms.Message`, SmallRye's
      `IncomingJmsMessageMetadata`, or another class, known by its name. */
  datatype UnwrapType = MessageType | IncomingJmsMessageMetadataType | OtherType(className: string)

  const MESSAGE_CLASS_NAME := "javax.jms.Message"
  const INCOMING_METADATA_CLASS_NAME := "io.smallrye.reactive.messaging.jms.IncomingJmsMessageMetadata"

  /** `unwrapType.getName()`. */
  function UnwrapClassName(unwrapType: UnwrapType): string {
    match unwrapType
    case MessageType => MESSAGE_CLASS_NAME
    case IncomingJmsMessageMetadataType => INCOMING_METADATA_CLASS_NAME
    case OtherType(n) => n
  }

  /** An unwrap type the JVM can produce: `OtherType` never names one of the
      two classes that have their own constructors. */
  predicate ValidUnwrapType(unwrapType: UnwrapType) {
    unwrapType.OtherType? ==> unwrapType.className != MESSAGE_CLASS_NAME && unwrapType.className != INCOMING_METADATA_CLASS_NAME
  }

  datatype Unwrapped = NativeHandle(message: NativeMessage) | MetadataHandle(metadata: IncomingJmsMessageMetadata)

  class IncomingJmsTxMessage {
    const delegate: NativeMessage
    const clazz: Option<JType>
    const json: Serializers
    const context: JmsContext
    const jmsMetadata: IncomingJmsMessageMetadata

    /** The field assignments of the constructor, once the class is resolved. */
    constructor Wrap(context: JmsContext, message: NativeMessage, clazz: Option<JType>, json: Serializers)
      ensures this.context == context && delegate == message && this.clazz == clazz && this.json == json
      ensures jmsMetadata == IncomingJmsMessageMetadata(message)
    {
      this.delegate := message;
      this.json := json;
      this.context := context;
      this.clazz := clazz;
      this.jmsMetadata := IncomingJmsMessageMetadata(message);
    }

    /** The constructor: it resolves the message's class at once and fails
        when a tag names a class no loader knows. */
    static method Create(context: JmsContext, message: NativeMessage, loaders: ClassLoaders, json: Serializers)
      returns (r: Result<IncomingJmsTxMessage, Error>)
      ensures ResolveClass(loaders, message).Failure? ==> r == Failure(ResolveClass(loaders, message).error)
      ensures ResolveClass(loaders, message).Success? ==>
        && r.Success? && fresh(r.value)
        && r.value.delegate == message && r.value.clazz == ResolveClass(loaders, message).value
        && r.value.context == context && r.value.json == json
        && r.value.jmsMetadata == IncomingJmsMessageMetadata(message)
    {
      var resolved := ResolveClass(loaders, message);
      if resolved.Failure? {
        return Failure(resolved.error);
      }
      var envelope := new IncomingJmsTxMessage.Wrap(context, message, resolved.value, json);
      return Success(envelope);
    }

    /** `getPayload`, decoded afresh on every call. */
    function GetPayload(): (r: Result<Value, Error>)
      ensures r == Decode(json, clazz, delegate.body)
    {
      Decode(json, clazz, delegate.body)
    }

    /** `ack`: one commit of the owning context. */
    method Ack()
      modifies context
      ensures context.journal == old(context.journal) + [SessionOp.Commit]
    {
      context.Commit();
    }

    /** `rollback`: one rollback of the owning context. */
    method Rollback()
      modifies context
      ensures context.journal == old(context.journal) + [SessionOp.Rollback]
    {
      context.Rollback();
    }

    /** `unwrap`: the native message or the JMS metadata, nothing else. */
    function Unwrap(unwrapType: UnwrapType): (r: Result<Unwrapped, Error>)
      ensures r.Success? <==> !unwrapType.OtherType?
      ensures ValidUnwrapType(unwrapType) ==>
        (r.Success? <==> UnwrapClassName(unwrapType) == MESSAGE_CLASS_NAME || UnwrapClassName(unwrapType) == INCOMING_METADATA_CLASS_NAME)
      ensures r.Failure? ==> r.error == UnwrapUnsupported
      ensures unwrapType.MessageType? ==> r == Success(NativeHandle(delegate))
      ensures unwrapType.IncomingJmsMessageMetadataType? ==> r == Success(MetadataHandle(jmsMetadata))
    {
      match unwrapType
      case MessageType => Success(NativeHandle(delegate))
      case IncomingJmsMessageMetadataType => Success(MetadataHandle(jmsMetadata))
      case OtherType(_) => Failure(UnwrapUnsupported)
    }

    /** `send(Stream)`: one producer of the owning context for the whole
        stream, each message sent in order, the first failure ending the
        stream with the earlier transmissions kept. */
    method Send(messages: seq<OutgoingMessage>) returns (r: Outcome<Error>)
      modifies context
      ensures r == DispatchAll(json, messages).outcome
      ensures context.journal == old(context.journal) + Sends(DispatchAll(json, messages).sent)
    {
      var producer := context.CreateProducer();
      ghost var done: seq<Transmission> := [];
      var i := 0;
      while i < |messages|
        invariant 0 <= i <= |messages|
        invariant producer.context == context
        invariant DispatchAll(json, messages).sent == done + DispatchAll(json, messages[i..]).sent
        invariant DispatchAll(json, messages).outcome == DispatchAll(json, messages[i..]).outcome
        invariant context.journal == old(context.journal) + Sends(done)
      {
        var result := SendMessage(json, producer, messages[i]);
        if result.Fail? {
          BatchStop(json, messages, i, done);
          return result;
        }
        ghost var t := Dispatch(json, messages[i]).value;
        BatchAdvance(json, messages, i, done);
        JournalAppend(old(context.journal), done, t);
        done := done + [t];
        i := i + 1;
      }
      assert messages[i..] == [];
      return Pass;
    }
  }
}
