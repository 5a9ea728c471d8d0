/** Properties that tie the outbound and inbound halves of the bridge together:
    what a typed payload looks like after a send, which payloads survive the
    trip to a receiving envelope, in which order a send reports its failures,
    and the transaction protocol seen from a client. */
module Bridge {
  import opened Wrappers
  import opened JavaLang
  import opened Payloads
  import opened Jms
  import opened Outgoing
  import opened Incoming

  // ---------------------------------------------------------------------------
  // The codec on its own

  /** The payloads whose text form `convert` reads back: the boxed integers,
      `Boolean` and `String`. */
  predicate DecimalOrText(v: Value) {
    v.IntegerV? || v.LongV? || v.ShortV? || v.ByteV? || v.BooleanV? || v.StringV?
  }

  /** The encoder's scalar test and the decoder's arms disagree on exactly
      two classes: `Character` is tagged as a scalar but has no arm in
      `convert`; `String` has an arm without being a boxed scalar. */
  lemma TextClassesAgreeExceptCharacter(c: JType)
    ensures IsPrimitiveBoxed(c) && !HasConvertArm(c) <==> c == CharacterT
    ensures HasConvertArm(c) && !IsPrimitiveBoxed(c) <==> c == StringT
  {
  }

  /** `convert` reads back the text `toString()` printed, for the boxed
      integers, `Boolean` and `String`. */
  lemma ConvertReadsToString(json: Serializers, v: Value)
    requires DecimalOrText(v)
    ensures Convert(json, ClassOf(v), ToString(v)) == Success(v)
  {
    match v
    case IntegerV(n) => ParseFormatDecimal(n, INT_MIN, INT_MAX);
    case LongV(n) => ParseFormatDecimal(n, LONG_MIN, LONG_MAX);
    case ShortV(n) => ParseFormatDecimal(n, SHORT_MIN, SHORT_MAX);
    case ByteV(n) => ParseFormatDecimal(n, BYTE_MIN, BYTE_MAX);
    case BooleanV(b) => ParseFormatBoolean(b);
    case StringV(_) =>
  }

  /** Round trip through a native message: a boxed integer, `Boolean` or
      `String` is tagged with its class, the receiving side resolves the tag
      to that class (when its loaders know it), and decoding gives the value
      back. */
  lemma ScalarRoundTrip(json: Serializers, loaders: ClassLoaders, v: Value)
    requires DecimalOrText(v)
    requires Load(loaders, ClassName(ClassOf(v))) == Some(ClassOf(v))
    ensures Encode(json, v).Success?
    ensures ResolveClass(loaders, Encode(json, v).value) == Success(Some(ClassOf(v)))
    ensures Decode(json, Some(ClassOf(v)), Encode(json, v).value.body) == Success(v)
  {
    ConvertReadsToString(json, v);
  }

  /** The same round trip, for receivers whose loaders are well formed: it is
      enough that they know the class name. */
  lemma ScalarRoundTripByName(json: Serializers, loaders: ClassLoaders, v: Value)
    requires DecimalOrText(v)
    requires WellFormedLoaders(loaders) && Load(loaders, ClassName(ClassOf(v))).Some?
    ensures ResolveClass(loaders, Encode(json, v).value) == Success(Some(ClassOf(v)))
    ensures Decode(json, Some(ClassOf(v)), Encode(json, v).value.body) == Success(v)
  {
    LoadFindsClass(loaders, ClassOf(v));
    ScalarRoundTrip(json, loaders, v);
  }

  /** Texts `convert` reads that no `toString()` prints: a '+' sign and
      leading zeros are accepted, trailing garbage and out-of-range values
      are number-format failures, and `Boolean` ignores case and never fails. */
  lemma ConvertExamples(json: Serializers)
    ensures Convert(json, IntegerT, "+42") == Success(IntegerV(42))
    ensures Convert(json, IntegerT, "007") == Success(IntegerV(7))
    ensures Convert(json, IntegerT, "1abc") == Failure(NumberFormat)
    ensures Convert(json, IntegerT, "") == Failure(NumberFormat)
    ensures Convert(json, ByteT, "128") == Failure(NumberFormat)
    ensures Convert(json, BooleanT, "TRUE") == Success(BooleanV(true))
    ensures Convert(json, BooleanT, "yes") == Success(BooleanV(false))
  {
    ParseDecimalAccepts();
    ParseDecimalRejects();
    ParseDecimalByteRange();
    assert EqualsIgnoreAsciiCase("TRUE", "true");
    assert !EqualsIgnoreAsciiCase("yes", "true");
  }

  /** The message `createJmsMessage` builds for a `byte[]` holds the bytes
      verbatim and no tag, so an envelope around it resolves no class,
      whatever its loaders, and returns the raw bytes. A send does not deliver
      that message as it is: it labels it with the destination type, as
      `SentBytesTaggedWithDestinationType` shows. */
  lemma BytesRoundTrip(json: Serializers, loaders: ClassLoaders, bytes: seq<Int8>)
    ensures Encode(json, ByteArrayV(bytes)).Success?
    ensures TypeTag(Encode(json, ByteArrayV(bytes)).value).None?
    ensures ResolveClass(loaders, Encode(json, ByteArrayV(bytes)).value) == Success(None)
    ensures Decode(json, None, Encode(json, ByteArrayV(bytes)).value.body) == Success(ByteArrayV(bytes))
  {
  }

  /** Round trip of an application object: its JSON text is tagged with its
      class name, well-formed loaders that know that name load its class, and
      decoding hands the text to the JSON decoder with that class, which gives
      the object back whenever the JSON binding reads its own output. */
  lemma ObjectRoundTrip(json: Serializers, loaders: ClassLoaders, v: Value)
    requires v.ObjectV? && ValidClass(ClassOf(v)) && json.toJson(v).Some?
    requires WellFormedLoaders(loaders) && Load(loaders, v.className).Some?
    requires json.fromJson(json.toJson(v).value, ClassOf(v)) == Some(v)
    ensures Encode(json, v).Success?
    ensures ResolveClass(loaders, Encode(json, v).value) == Success(Some(ClassOf(v)))
    ensures Decode(json, Some(ClassOf(v)), Encode(json, v).value.body) == Success(v)
  {
    LoadFindsClass(loaders, ClassOf(v));
  }

  /** A `Character` is tagged like the other scalars, but decoding its
      one-character text is left to the JSON decoder; whenever that decoder
      rejects the bare character, the round trip fails. */
  lemma CharacterDecodedAsJson(json: Serializers, loaders: ClassLoaders, c: char)
    requires Load(loaders, ClassName(CharacterT)) == Some(CharacterT)
    ensures Encode(json, CharacterV(c)).Success?
    ensures ResolveClass(loaders, Encode(json, CharacterV(c)).value) == Success(Some(CharacterT))
    ensures Encode(json, CharacterV(c)).value.body == TextBody([c])
    ensures json.fromJson([c], CharacterT).None? ==>
      Decode(json, Some(CharacterT), TextBody([c])) == Failure(JsonDecodeFailed)
    ensures json.fromJson([c], CharacterT).Some? ==>
      Decode(json, Some(CharacterT), TextBody([c])) == Success(json.fromJson([c], CharacterT).value)
  {
  }

  /** An envelope tagged `java.lang.Integer` with the body "42" yields 42. */
  lemma IntegerFortyTwo(json: Serializers, loaders: ClassLoaders, message: NativeMessage)
    requires message.properties == map[MESSAGE_PROPERTY_CLASSNAME := "java.lang.Integer"]
    requires message.body == TextBody("42")
    requires Load(loaders, "java.lang.Integer") == Some(IntegerT)
    ensures ResolveClass(loaders, message) == Success(Some(IntegerT))
    ensures Decode(json, Some(IntegerT), message.body) == Success(IntegerV(42))
  {
    ParseFormatDecimal(42, INT_MIN, INT_MAX);
    assert FormatDecimal(42) == "42";
  }

  /** The `_classname` property outranks a different JMSType label: with
      well-formed loaders the envelope's class is the one the property names. */
  lemma ClassNamePropertyWins(loaders: ClassLoaders, message: NativeMessage, className: string)
    requires message.properties == map[MESSAGE_PROPERTY_CLASSNAME := className]
    requires message.jmsType.Some? && message.jmsType.value != className
    ensures TypeTag(message) == Some(className)
    ensures ResolveClass(loaders, message).Success? ==> ResolveClass(loaders, message).value == Load(loaders, className)
    ensures WellFormedLoaders(loaders) && ResolveClass(loaders, message).Success? ==>
      ClassName(ResolveClass(loaders, message).value.value) == className
  {
  }

  // ---------------------------------------------------------------------------
  // Destinations

  /** The destination type is matched without regard to case: it gives a
      queue exactly when it equals "queue" ignoring case, and a topic exactly
      when it equals "topic" ignoring case. */
  lemma DestinationTypeIgnoresCase(name: string, destinationType: string)
    ensures GetDestination(name, Some(destinationType)) == Success(Queue(name)) <==>
            EqualsIgnoreAsciiCase(destinationType, QUEUE)
    ensures GetDestination(name, Some(destinationType)) == Success(Topic(name)) <==>
            EqualsIgnoreAsciiCase(destinationType, TOPIC)
    ensures GetDestination(name, Some(destinationType)).Success? ==
            GetDestination(name, Some(ToLowerAscii(destinationType))).Success?
    ensures IsDestinationKind(destinationType) ==>
      GetDestination(name, Some(destinationType)) == GetDestination(name, Some(ToLowerAscii(destinationType)))
  {
    LowerAsciiMatches(destinationType, QUEUE);
    LowerAsciiMatches(destinationType, TOPIC);
  }

  /** The two type constants of the builder resolve; "fanout" does not. */
  lemma BuilderTypesResolve(name: string)
    ensures GetDestination(name, Some(QUEUE)) == Success(Queue(name))
    ensures GetDestination(name, Some(TOPIC)) == Success(Topic(name))
    ensures GetDestination(name, Some("QUEUE")) == Success(Queue(name))
    ensures GetDestination(name, Some("fanout")) == Failure(UnknownDestinationType("fanout"))
  {
    assert ToLowerAscii(QUEUE) == QUEUE;
    assert ToLowerAscii(TOPIC) == TOPIC;
    assert ToLowerAscii("QUEUE") == QUEUE;
    assert ToLowerAscii("fanout")[0] == 'f';
  }

  // ---------------------------------------------------------------------------
  // Sending

  /** The native message a successful send transmits: the encoded body, the
      correlation id and delivery mode when set, the metadata type as JMSType
      label in place of the class name, the reply-to resolved with the same
      type, the property writes applied over the encoder's properties, and the
      destination resolved from name and type. */
  lemma DispatchedMessage(json: Serializers, message: OutgoingMessage)
    requires Dispatch(json, message).Success?
    ensures
      var md := message.metadata.value;
      var t := Dispatch(json, message).value;
      var encoded := Encode(json, message.payload).value;
      && t.destination == GetDestination(md.destination.value, md.destinationType).value
      && t.message.body == encoded.body
      && t.message.correlationId == md.correlationId
      && t.message.deliveryMode == (if md.deliveryMode == UNSET_DELIVERY_MODE then None else Some(md.deliveryMode))
      && t.message.jmsType == md.destinationType
      && t.message.replyTo == (if HasReplyTo(md) then Some(GetDestination(md.replyTo.value, md.destinationType).value) else None)
      && t.message.properties ==
           (if md.properties.Some? then WriteAll(encoded.properties, md.properties.value.writes) else encoded.properties)
  {
  }

  /** The reply-to destination is of the same kind as the destination. */
  lemma ReplyToSameKind(json: Serializers, message: OutgoingMessage)
    requires Dispatch(json, message).Success? && HasReplyTo(message.metadata.value)
    ensures Dispatch(json, message).value.message.replyTo.Some?
    ensures Dispatch(json, message).value.message.replyTo.value.Queue? ==
            Dispatch(json, message).value.destination.Queue?
    ensures Dispatch(json, message).value.message.replyTo.value.name == message.metadata.value.replyTo.value
  {
    DispatchedMessage(json, message);
  }

  /** Which failure a send reports when several apply: encoding first, then
      the reply-to (which fails exactly when the type is bad), then the
      properties, then the destination. */
  lemma DispatchFailureOrder(json: Serializers, message: OutgoingMessage)
    requires message.metadata.Some? && HasDestination(message.metadata.value)
    ensures
      var md := message.metadata.value;
      var r := Dispatch(json, message);
      var typeOk := md.destinationType.Some? && IsDestinationKind(md.destinationType.value);
      var foreign := md.properties.Some? && md.properties.value.OtherJmsProperties?;
      && (Encode(json, message.payload).Failure? ==> r == Failure(SendFailed(Encode(json, message.payload).error)))
      && (Encode(json, message.payload).Success? && !typeOk && HasReplyTo(md) ==>
            r == Failure(SendFailed(GetDestination(md.replyTo.value, md.destinationType).error)))
      && (Encode(json, message.payload).Success? && foreign && (typeOk || !HasReplyTo(md)) ==>
            r == Failure(SendFailed(InvalidProperties(md.properties.value.className))))
      && (Encode(json, message.payload).Success? && !typeOk && !foreign ==>
            r == Failure(SendFailed(GetDestination(md.destination.value, md.destinationType).error)))
  {
  }

  /** A null type never lets a message through: with valid metadata the send
      fails inside the try block, with `NullType` once the payload is encoded,
      unless foreign properties are met first. */
  lemma NullTypeNeverSends(json: Serializers, message: OutgoingMessage)
    requires message.metadata.Some? && message.metadata.value.destinationType.None?
    ensures Dispatch(json, message).Failure?
    ensures HasDestination(message.metadata.value) ==> Dispatch(json, message).error.SendFailed?
    ensures
      var md := message.metadata.value;
      HasDestination(md) && Encode(json, message.payload).Success?
      && (HasReplyTo(md) || !(md.properties.Some? && md.properties.value.OtherJmsProperties?)) ==>
        Dispatch(json, message) == Failure(SendFailed(NullType))
  {
    if HasDestination(message.metadata.value) {
      DispatchFailureOrder(json, message);
    }
  }

  /** The full trip for a boxed integer, `Boolean` or `String`: whatever the
      destination type overwrote in the JMSType label, `_classname` survives
      (unless a property write replaces it), so the receiving envelope
      resolves the original class and decodes the original value. */
  lemma SentScalarRoundTrip(json: Serializers, loaders: ClassLoaders, message: OutgoingMessage)
    requires Dispatch(json, message).Success?
    requires DecimalOrText(message.payload)
    requires message.metadata.value.properties.Some? ==>
      forall j :: 0 <= j < |message.metadata.value.properties.value.writes| ==>
        message.metadata.value.properties.value.writes[j].name != MESSAGE_PROPERTY_CLASSNAME
    requires Load(loaders, ClassName(ClassOf(message.payload))) == Some(ClassOf(message.payload))
    ensures ResolveClass(loaders, Dispatch(json, message).value.message) == Success(Some(ClassOf(message.payload)))
    ensures Decode(json, Some(ClassOf(message.payload)), Dispatch(json, message).value.message.body) == Success(message.payload)
  {
    var md := message.metadata.value;
    var encoded := Encode(json, message.payload).value;
    DispatchedMessage(json, message);
    if md.properties.Some? {
      UnwrittenNameKept(encoded.properties, md.properties.value.writes, MESSAGE_PROPERTY_CLASSNAME);
    }
    ScalarRoundTrip(json, loaders, message.payload);
  }

  /** The full trip for an application object: the destination type replaces
      the JMSType label, but `_classname` survives (unless a property write
      replaces it), so well-formed receiving loaders that know the class name
      resolve the object's class, and the JSON decoder reads the object back. */
  lemma SentObjectRoundTrip(json: Serializers, loaders: ClassLoaders, message: OutgoingMessage)
    requires Dispatch(json, message).Success?
    requires message.payload.ObjectV? && ValidClass(ClassOf(message.payload))
    requires message.metadata.value.properties.Some? ==>
      forall j :: 0 <= j < |message.metadata.value.properties.value.writes| ==>
        message.metadata.value.properties.value.writes[j].name != MESSAGE_PROPERTY_CLASSNAME
    requires WellFormedLoaders(loaders) && Load(loaders, message.payload.className).Some?
    requires json.toJson(message.payload).Some?
    requires json.fromJson(json.toJson(message.payload).value, ClassOf(message.payload)) == Some(message.payload)
    ensures ResolveClass(loaders, Dispatch(json, message).value.message) == Success(Some(ClassOf(message.payload)))
    ensures Decode(json, Some(ClassOf(message.payload)), Dispatch(json, message).value.message.body) == Success(message.payload)
  {
    var md := message.metadata.value;
    var encoded := Encode(json, message.payload).value;
    DispatchedMessage(json, message);
    if md.properties.Some? {
      UnwrittenNameKept(encoded.properties, md.properties.value.writes, MESSAGE_PROPERTY_CLASSNAME);
    }
    ObjectRoundTrip(json, loaders, message.payload);
  }

  /** A `byte[]` that was sent carries no `_classname`, but its JMSType label
      now holds the destination type, so the receiving side takes "queue" or
      "topic" for a class name; with loaders that know no such class, the
      envelope cannot even be constructed. */
  lemma SentBytesTaggedWithDestinationType(json: Serializers, loaders: ClassLoaders, message: OutgoingMessage)
    requires Dispatch(json, message).Success?
    requires message.payload.ByteArrayV?
    requires message.metadata.value.properties.Some? ==>
      forall j :: 0 <= j < |message.metadata.value.properties.value.writes| ==>
        message.metadata.value.properties.value.writes[j].name != MESSAGE_PROPERTY_CLASSNAME
    ensures TypeTag(Dispatch(json, message).value.message) == message.metadata.value.destinationType
    ensures Load(loaders, message.metadata.value.destinationType.value).None? ==>
      ResolveClass(loaders, Dispatch(json, message).value.message) ==
        Failure(UnresolvedType(message.metadata.value.destinationType.value))
  {
    var md := message.metadata.value;
    var encoded := Encode(json, message.payload).value;
    DispatchedMessage(json, message);
    if md.properties.Some? {
      UnwrittenNameKept(encoded.properties, md.properties.value.writes, MESSAGE_PROPERTY_CLASSNAME);
    }
  }

  /** Metadata for the queue "orders" made with the builder. */
  method OrdersQueue() returns (md: OutgoingJmsTxMessageMetadata)
    ensures md == OutgoingJmsTxMessageMetadata(None, None, Some("orders"), UNSET_DELIVERY_MODE, Some(QUEUE), None)
  {
    var b := Builder();
    b := b.WithDestination(Some("orders"));
    b := b.WithTypeQueue();
    md := b.Build();
  }

  /** An application object sent to the queue "orders": the JSON text on the
      queue, tagged `_classname` with the object's class, and the JMSType label
      "queue" put there by the metadata. */
  lemma OrdersScenario(json: Serializers, order: Value, text: string)
    requires order.ObjectV? && json.toJson(order) == Some(text)
    ensures
      var md := OutgoingJmsTxMessageMetadata(None, None, Some("orders"), UNSET_DELIVERY_MODE, Some(QUEUE), None);
      Dispatch(json, OutgoingMessage(order, Some(md))) ==
        Success(Transmission(Queue("orders"),
          NativeMessage(map[MESSAGE_PROPERTY_CLASSNAME := order.className], Some(QUEUE), None, None, None, TextBody(text))))
  {
    var md := OutgoingJmsTxMessageMetadata(None, None, Some("orders"), UNSET_DELIVERY_MODE, Some(QUEUE), None);
    assert !IsBlank("orders") by { assert !IsWhitespace("orders"[0]); }
    BuilderTypesResolve("orders");
  }

  /** A reply-to without a destination type fails before anything is
      transmitted. */
  lemma ReplyToWithoutType(json: Serializers, payload: Value)
    requires Encode(json, payload).Success?
    ensures
      var md := OutgoingJmsTxMessageMetadata(None, Some("responses"), Some("orders"), UNSET_DELIVERY_MODE, None, None);
      Dispatch(json, OutgoingMessage(payload, Some(md))) == Failure(SendFailed(NullType))
  {
    var md := OutgoingJmsTxMessageMetadata(None, Some("responses"), Some("orders"), UNSET_DELIVERY_MODE, None, None);
    assert !IsBlank("orders") by { assert !IsWhitespace("orders"[0]); }
    NullTypeNeverSends(json, OutgoingMessage(payload, Some(md)));
  }

  // ---------------------------------------------------------------------------
  // The transaction, from a client

  /** Receiving a message, sending a reply through the envelope and
      acknowledging: the session sees the reply, then one commit that covers
      it. A rollback instead would undo the same transaction. */
  method ReplyAndAcknowledge(json: Serializers, loaders: ClassLoaders, received: NativeMessage,
                             reply: OutgoingMessage, commit: bool)
    returns (journal: seq<SessionOp>)
    requires ResolveClass(loaders, received).Success?
    requires Dispatch(json, reply).Success?
    ensures journal == [Sent(Dispatch(json, reply).value), if commit then SessionOp.Commit else SessionOp.Rollback]
  {
    var context := new JmsContext();
    var created := IncomingJmsTxMessage.Create(context, received, loaders, json);
    var envelope := created.value;
    var outcome := envelope.Send([reply]);
    if commit {
      envelope.Ack();
    } else {
      envelope.Rollback();
    }
    journal := context.journal;
  }
}
