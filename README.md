# Transactional JMS messages for Quarkus reactive messaging — a Dafny model

The extension hands each received JMS message to the application as an
`IncomingJmsTxMessage`, an envelope inside the transacted `JMSContext` that
received it. The envelope learns the payload's class from the `_classname`
property or else the JMSType label, and loads that class when it is constructed.
It decodes the text body on demand: the boxed scalars and `String` by their
own parsers, anything else as JSON. `Character` is the exception: it is
encoded as a scalar, but there is no parser arm for it, so it is decoded as JSON. `ack` commits the session and
`rollback` rolls it back. The application can also send new messages through
the same session. Each outgoing message carries an `OutgoingJmsTxMessageMetadata`
made with its builder: destination name, destination type ("queue" or "topic"),
correlation id, delivery mode, reply-to and JMS properties. Its payload is
encoded the same way in reverse.

The model is in seven modules:

- `Wrappers` (wrappers.dfy): `Option`, `Result`, `Outcome`.
- `JavaLang` (java_lang.dfy): the parts of the JDK the code relies on. These
  are the fixed-width integers, `Integer/Long/Short/Byte.valueOf` and
  `toString`, `Boolean.valueOf`, `String.toLowerCase` on ASCII,
  `Character.isWhitespace` and `String.isBlank`.
- `Payloads` (payloads.dfy): runtime classes, payload values,
  `getClass().getName()`, `toString()`, and the JSON-B and floating-point
  collaborators. These collaborators are parameters that the model does not
  look into.
- `Jms` (jms.dfy): native messages, destinations, SmallRye's property bag, and
  the transacted context and its producer. Both are classes. The context keeps
  the journal of what its session sent, committed and rolled back.
- `Outgoing` (outgoing.dfy): the immutable metadata record and its builder
  class.
- `Incoming` (incoming.dfy): the envelope class and everything it calls. That
  covers type resolution, `load`, `convert`, `getPayload`,
  `createJmsMessage`, `getDestination`, the single-message `send` and the
  stream `send`.
- `Bridge` (bridge.dfy): properties that tie the two directions together.
  These are round trips, the shape of what is sent, the order in which a send
  reports failures, and a receive–reply–commit scenario.

Each side-effecting method is proved against a function. `SendMessage`
against `Dispatch`, the stream `Send` against `DispatchAll`, and
`CreateJmsMessage` against `Encode`. The properties are proved about those
functions.

## Model

| member | source | states |
|---|---|---|
| Incoming.TypeTag | impl/src/main/java/org/lorislab/quarkus/reactive/jms/tx/IncomingJmsTxMessage.java:33-41 | The declared class name is the `_classname` property when it is set, otherwise the JMSType label. When the property is missing, the tag is the JMSType label. It is absent exactly when both are absent. |
| Incoming.Load | impl/src/main/java/org/lorislab/quarkus/reactive/jms/tx/IncomingJmsTxMessage.java:53-63 | The context loader is asked first, if there is one. Its class is returned when it knows the name; otherwise the bridge's own loader decides. The load fails exactly when neither loader knows the name. With well-formed loaders, the class returned has the requested name. |
| Incoming.LoadFindsClass | impl/src/main/java/org/lorislab/quarkus/reactive/jms/tx/IncomingJmsTxMessage.java:53-63 | Well-formed loaders that know a class's name load that very class. Well-formed loaders return only classes of the requested name, never an application class with a built-in name, and never an array class, since `ClassLoader.loadClass` does not load array names. |
| Incoming.ResolveClass | impl/src/main/java/org/lorislab/quarkus/reactive/jms/tx/IncomingJmsTxMessage.java:42-46 | An untagged message resolves to no class. A tagged message resolves to the loaded class. It fails with the unresolved name exactly when no loader knows the tag. |
| Incoming.IncomingJmsTxMessage.Create | impl/src/main/java/org/lorislab/quarkus/reactive/jms/tx/IncomingJmsTxMessage.java:27-50 | Construction fails exactly when class resolution does. Otherwise the new envelope keeps the message, the resolved class, the context, the JSON handle and the message's JMS metadata. |
| Incoming.IncomingJmsTxMessage.Wrap | impl/src/main/java/org/lorislab/quarkus/reactive/jms/tx/IncomingJmsTxMessage.java:28-48 | The constructor's field assignments. |
| Incoming.Convert | impl/src/main/java/org/lorislab/quarkus/reactive/jms/tx/IncomingJmsTxMessage.java:88-115 | Each scalar arm gives a value of exactly the requested class. The integer arms succeed exactly when `ParseDecimal` accepts the text in that class's range, and give its value. `Double` and `Float` succeed exactly when the JDK parser accepts the text, and give its value. `Boolean` is true exactly when the text equals "true" ignoring case, and never fails. `String` is the text itself. A scalar arm can only fail with a number-format error. Every other class succeeds exactly when the JSON decoder does, and gives the decoder's value. |
| Bridge.ConvertExamples | impl/src/main/java/org/lorislab/quarkus/reactive/jms/tx/IncomingJmsTxMessage.java:88-115 | "+42" and "007" read as 42 and 7. "1abc", the empty text, and "128" for `Byte` are number-format failures. "TRUE" is true and "yes" is false. |
| JavaLang.ParseDecimal | impl/src/main/java/org/lorislab/quarkus/reactive/jms/tx/IncomingJmsTxMessage.java:90-109 | `valueOf` for the integer classes succeeds exactly when the text is an optional '+' or '-' followed by one or more ASCII digits, and its signed value lies in the class's range. The result is that value. |
| JavaLang.ParseDecimalAccepts | impl/src/main/java/org/lorislab/quarkus/reactive/jms/tx/IncomingJmsTxMessage.java:90 | A '+' sign and leading zeros are accepted: "+42", "-42" and "007" read as 42, -42 and 7. |
| JavaLang.ParseDecimalRejects | impl/src/main/java/org/lorislab/quarkus/reactive/jms/tx/IncomingJmsTxMessage.java:90 | Trailing garbage, a lone sign, a leading blank and the empty text are rejected. |
| JavaLang.ParseDecimalByteRange | impl/src/main/java/org/lorislab/quarkus/reactive/jms/tx/IncomingJmsTxMessage.java:108 | `Byte.valueOf` rejects "128" and accepts "-128". |
| JavaLang.FormatDecimal | impl/src/main/java/org/lorislab/quarkus/reactive/jms/tx/IncomingJmsTxMessage.java:212 | `toString` of an integer is a decimal text denoting it. It starts with '-' exactly when the value is negative, never starts with '+', and has no leading zero except for "0". |
| JavaLang.ParseFormatDecimal | impl/src/main/java/org/lorislab/quarkus/reactive/jms/tx/IncomingJmsTxMessage.java:90-109 | The integer parsers read back what `toString` prints, for every value in their range. |
| JavaLang.NaturalDigitsDenote | impl/src/main/java/org/lorislab/quarkus/reactive/jms/tx/IncomingJmsTxMessage.java:212 | `toString` of a natural number is a non-empty string of digits that denotes that number. |
| JavaLang.ParseFormatBoolean | impl/src/main/java/org/lorislab/quarkus/reactive/jms/tx/IncomingJmsTxMessage.java:101-103 | `Boolean.valueOf` reads back `Boolean.toString`. |
| JavaLang.ToLowerAscii | impl/src/main/java/org/lorislab/quarkus/reactive/jms/tx/IncomingJmsTxMessage.java:199 | Lower-casing keeps the length and leaves no upper-case ASCII letter. Each character is either kept or is the lower-case form of an upper-case letter. |
| JavaLang.LowerAsciiMatches | impl/src/main/java/org/lorislab/quarkus/reactive/jms/tx/IncomingJmsTxMessage.java:199-203 | The lower-cased text equals a lower-case word exactly when the text equals that word ignoring case, character by character. |
| JavaLang.ParseBoolean | impl/src/main/java/org/lorislab/quarkus/reactive/jms/tx/IncomingJmsTxMessage.java:101-103 | `Boolean.valueOf` is true exactly when the text equals "true" ignoring case. |
| Incoming.Decode | impl/src/main/java/org/lorislab/quarkus/reactive/jms/tx/IncomingJmsTxMessage.java:75-85 | An untyped message gives its raw body and never fails: text as a `String`, bytes as a `byte[]`. A typed message with a bytes body fails. A typed text body is converted to the resolved class. |
| Incoming.IncomingJmsTxMessage.GetPayload | impl/src/main/java/org/lorislab/quarkus/reactive/jms/tx/IncomingJmsTxMessage.java:75-85 | The payload is the decoding of the envelope's own body with its resolved class, recomputed on every call. |
| Incoming.IncomingJmsTxMessage.Ack | impl/src/main/java/org/lorislab/quarkus/reactive/jms/tx/IncomingJmsTxMessage.java:117-120 | One commit is appended to the owning session and nothing else changes. |
| Incoming.IncomingJmsTxMessage.Rollback | impl/src/main/java/org/lorislab/quarkus/reactive/jms/tx/IncomingJmsTxMessage.java:122-124 | One rollback is appended to the owning session and nothing else changes. |
| Incoming.IncomingJmsTxMessage.Unwrap | impl/src/main/java/org/lorislab/quarkus/reactive/jms/tx/IncomingJmsTxMessage.java:133-141 | Unwrapping succeeds exactly for the native message class and the JMS metadata class, and returns those objects. Any other class fails. For a type the JVM can produce, unwrapping succeeds exactly when the requested class is named `javax.jms.Message` or `IncomingJmsMessageMetadata`. |
| Incoming.Encode | impl/src/main/java/org/lorislab/quarkus/reactive/jms/tx/IncomingJmsTxMessage.java:209-229 | Encoding fails exactly for a null payload, or for a non-scalar, non-`byte[]` payload that the JSON encoder rejects. A `byte[]` is sent verbatim with no tag. Every text message is tagged with the class name, as `_classname` and as JMSType. A scalar's body is its `toString()`; any other object's body is its JSON. No header is set. |
| Incoming.IsPrimitiveBoxed | impl/src/main/java/org/lorislab/quarkus/reactive/jms/tx/IncomingJmsTxMessage.java:231-240 | For a class the JVM can produce, the test holds exactly when the class name is one of the eight wrapper class names. |
| Payloads.ClassNameIdentifies | impl/src/main/java/org/lorislab/quarkus/reactive/jms/tx/IncomingJmsTxMessage.java:213 | `getClass().getName()` identifies the class, as long as no application class takes a built-in class's name. |
| Incoming.CreateJmsMessage | impl/src/main/java/org/lorislab/quarkus/reactive/jms/tx/IncomingJmsTxMessage.java:209-229 | The setter-by-setter construction builds exactly the message `Encode` describes. |
| Incoming.GetDestination | impl/src/main/java/org/lorislab/quarkus/reactive/jms/tx/IncomingJmsTxMessage.java:198-207 | Resolution succeeds exactly when the lower-cased type is "queue" or "topic". It gives a queue or a topic of that name accordingly. A null type fails with the null-type cause; any other word fails with the unknown-type error. |
| JavaLang.BlankExamples | impl/src/main/java/org/lorislab/quarkus/reactive/jms/tx/IncomingJmsTxMessage.java:154 | `isBlank` holds for the empty text, ASCII blanks and the em space. It does not hold for a name with a letter, or for the non-breaking spaces U+00A0, U+2007 and U+202F, so these pass the destination check. |
| Incoming.Dispatch | impl/src/main/java/org/lorislab/quarkus/reactive/jms/tx/IncomingJmsTxMessage.java:148-196 | Missing metadata fails first. A missing or blank destination name fails next. Every later failure is a send failure. A send succeeds exactly when the message is deliverable: destination set, payload encodable, type queue or topic, and properties not foreign. |
| Incoming.SendMessage | impl/src/main/java/org/lorislab/quarkus/reactive/jms/tx/IncomingJmsTxMessage.java:148-196 | On success, exactly the message `Dispatch` describes is transmitted. On failure, the error is returned and nothing is transmitted. |
| Incoming.ApplyPropertyWrites | impl/src/main/java/org/lorislab/quarkus/reactive/jms/tx/IncomingJmsTxMessage.java:181-189 | The property bag's entries are applied in order over the message's properties. |
| Jms.WriteBytes | impl/src/main/java/org/lorislab/quarkus/reactive/jms/tx/IncomingJmsTxMessage.java:216-218 | `writeBytes` keeps the bytes written so far in front, puts the new bytes after them, and changes nothing but the body. |
| Jms.LastWriteWins | impl/src/main/java/org/lorislab/quarkus/reactive/jms/tx/IncomingJmsTxMessage.java:188 | The last property write to a name decides its value. |
| Jms.UnwrittenNameKept | impl/src/main/java/org/lorislab/quarkus/reactive/jms/tx/IncomingJmsTxMessage.java:188 | A name no write mentions keeps its presence and its value. |
| Incoming.DispatchAll | impl/src/main/java/org/lorislab/quarkus/reactive/jms/tx/IncomingJmsTxMessage.java:143-146 | A stream sends at most one transmission per message, and passes exactly when every message was sent. |
| Incoming.DispatchAllSends | impl/src/main/java/org/lorislab/quarkus/reactive/jms/tx/IncomingJmsTxMessage.java:143-146 | The stream's transmissions are the `Dispatch` results of its leading messages, in order. On failure, the error is that of the first message not sent. |
| Incoming.IncomingJmsTxMessage.Send | impl/src/main/java/org/lorislab/quarkus/reactive/jms/tx/IncomingJmsTxMessage.java:143-146 | The session's journal gains exactly the transmissions `DispatchAll` lists, and the result is its outcome. The single JMS producer the method creates for the whole stream is not visible in this contract. |
| Jms.JmsContext.Commit | impl/src/main/java/org/lorislab/quarkus/reactive/jms/tx/IncomingJmsTxMessage.java:119 | `commit` appends one commit to the session. |
| Jms.JmsContext.Rollback | impl/src/main/java/org/lorislab/quarkus/reactive/jms/tx/IncomingJmsTxMessage.java:123 | `rollback` appends one rollback to the session. |
| Jms.JmsContext.CreateProducer | impl/src/main/java/org/lorislab/quarkus/reactive/jms/tx/IncomingJmsTxMessage.java:144 | A fresh producer bound to this context. |
| Jms.JmsProducer.Send | impl/src/main/java/org/lorislab/quarkus/reactive/jms/tx/IncomingJmsTxMessage.java:192 | `producer.send` appends one transmission to its context's session. |
| Outgoing.OutputJmsTxMessageMetadataBuilder.constructor | impl/src/main/java/org/lorislab/quarkus/reactive/jms/tx/OutgoingJmsTxMessageMetadata.java:63-68 | A new builder has delivery mode -1 and every reference field null. |
| Outgoing.OutputJmsTxMessageMetadataBuilder.Build | impl/src/main/java/org/lorislab/quarkus/reactive/jms/tx/OutgoingJmsTxMessageMetadata.java:110-112 | `build` copies the six fields into the metadata record and only reads the builder. |
| Outgoing.OutputJmsTxMessageMetadataBuilder.WithCorrelationId | impl/src/main/java/org/lorislab/quarkus/reactive/jms/tx/OutgoingJmsTxMessageMetadata.java:70-73 | Replaces the correlation id only and returns the same builder. |
| Outgoing.OutputJmsTxMessageMetadataBuilder.WithReplyTo | impl/src/main/java/org/lorislab/quarkus/reactive/jms/tx/OutgoingJmsTxMessageMetadata.java:75-78 | Replaces the reply-to only and returns the same builder. |
| Outgoing.OutputJmsTxMessageMetadataBuilder.WithDestination | impl/src/main/java/org/lorislab/quarkus/reactive/jms/tx/OutgoingJmsTxMessageMetadata.java:80-83 | Replaces the destination only and returns the same builder. |
| Outgoing.OutputJmsTxMessageMetadataBuilder.WithDeliveryMode | impl/src/main/java/org/lorislab/quarkus/reactive/jms/tx/OutgoingJmsTxMessageMetadata.java:85-88 | Replaces the delivery mode only and returns the same builder. |
| Outgoing.OutputJmsTxMessageMetadataBuilder.WithType | impl/src/main/java/org/lorislab/quarkus/reactive/jms/tx/OutgoingJmsTxMessageMetadata.java:90-93 | Replaces the type only, with any text or null, and returns the same builder. |
| Outgoing.OutputJmsTxMessageMetadataBuilder.WithTypeQueue | impl/src/main/java/org/lorislab/quarkus/reactive/jms/tx/OutgoingJmsTxMessageMetadata.java:95-98 | Sets the type to "queue" only and returns the same builder. |
| Outgoing.OutputJmsTxMessageMetadataBuilder.WithTypeTopic | impl/src/main/java/org/lorislab/quarkus/reactive/jms/tx/OutgoingJmsTxMessageMetadata.java:100-103 | Sets the type to "topic" only and returns the same builder. |
| Outgoing.OutputJmsTxMessageMetadataBuilder.WithProperties | impl/src/main/java/org/lorislab/quarkus/reactive/jms/tx/OutgoingJmsTxMessageMetadata.java:105-108 | Replaces the properties only and returns the same builder. |
| Outgoing.Builder | impl/src/main/java/org/lorislab/quarkus/reactive/jms/tx/OutgoingJmsTxMessageMetadata.java:53-55 | `builder()` gives a fresh builder whose `build()` is the default metadata. |
| Outgoing.Apply | impl/src/main/java/org/lorislab/quarkus/reactive/jms/tx/OutgoingJmsTxMessageMetadata.java:70-108 | One `with*` call: its field holds the call's value, and every other field is unchanged. |
| Outgoing.LastSettingWins | impl/src/main/java/org/lorislab/quarkus/reactive/jms/tx/OutgoingJmsTxMessageMetadata.java:70-108 | In any chain of `with*` calls, the last call that writes a field decides that field's value. |
| Outgoing.UnwrittenFieldKept | impl/src/main/java/org/lorislab/quarkus/reactive/jms/tx/OutgoingJmsTxMessageMetadata.java:63-108 | In any chain of `with*` calls, a field no call writes keeps its starting value, which is the default for a new builder. |
| Outgoing.BuildChain | impl/src/main/java/org/lorislab/quarkus/reactive/jms/tx/OutgoingJmsTxMessageMetadata.java:53-112 | A new builder, written by any chain of `with*` calls and then built, gives exactly the metadata that `ApplyAll` describes for that chain from the defaults. |
| Outgoing.ChainedBuild | impl/src/main/java/org/lorislab/quarkus/reactive/jms/tx/OutgoingJmsTxMessageMetadata.java:63-112 | One fixed chain writes the type three times and the delivery mode twice. The result holds the last of each, plus the correlation id and destination written once; reply-to and properties keep their defaults. |
| Bridge.TextClassesAgreeExceptCharacter | impl/src/main/java/org/lorislab/quarkus/reactive/jms/tx/IncomingJmsTxMessage.java:231-240 | The encoder's scalar test and the decoder's arms disagree on exactly two classes. `Character` is a boxed scalar without a `convert` arm; `String` has a `convert` arm without being a boxed scalar. |
| Bridge.ConvertReadsToString | impl/src/main/java/org/lorislab/quarkus/reactive/jms/tx/IncomingJmsTxMessage.java:88-112 | `convert` inverts `toString()` for the integer classes, `Boolean` and `String`. |
| Bridge.ScalarRoundTrip | impl/src/main/java/org/lorislab/quarkus/reactive/jms/tx/IncomingJmsTxMessage.java:209-214 | Decode after encode returns the value for the integer classes, `Boolean` and `String`, whenever the receiver can load the class. |
| Bridge.ScalarRoundTripByName | impl/src/main/java/org/lorislab/quarkus/reactive/jms/tx/IncomingJmsTxMessage.java:33-46 | With well-formed loaders, it is enough that the receiver knows the class name: the envelope resolves the payload's own class, and the decoded value is the sent one. |
| Bridge.BytesRoundTrip | impl/src/main/java/org/lorislab/quarkus/reactive/jms/tx/IncomingJmsTxMessage.java:215-218 | The message `createJmsMessage` builds for a `byte[]` is untagged, so an envelope around it resolves to no class with any loaders and decodes to the same bytes. A send adds the destination type as JMSType; `Bridge.SentBytesTaggedWithDestinationType` states what the receiver then sees. |
| Bridge.ObjectRoundTrip | impl/src/main/java/org/lorislab/quarkus/reactive/jms/tx/IncomingJmsTxMessage.java:219-226 | An application object is encoded as its JSON, tagged with its class name. Well-formed loaders that know that name resolve the object's own class, and decoding gives the object back whenever the JSON binding reads its own output for that class. |
| Bridge.CharacterDecodedAsJson | impl/src/main/java/org/lorislab/quarkus/reactive/jms/tx/IncomingJmsTxMessage.java:238 | A `Character` is sent as a one-character text tagged `java.lang.Character`. Decoding it is left to the JSON decoder, and the decode fails whenever that decoder rejects the bare character. |
| Bridge.IntegerFortyTwo | impl/src/main/java/org/lorislab/quarkus/reactive/jms/tx/IncomingJmsTxMessage.java:89-91 | A message tagged `java.lang.Integer` with the body "42" yields the integer 42. |
| Bridge.ClassNamePropertyWins | impl/src/main/java/org/lorislab/quarkus/reactive/jms/tx/IncomingJmsTxMessage.java:35-38 | The `_classname` property outranks a different JMSType label. With well-formed loaders, the resolved class is the one the property names. |
| Bridge.DestinationTypeIgnoresCase | impl/src/main/java/org/lorislab/quarkus/reactive/jms/tx/IncomingJmsTxMessage.java:199-203 | A type gives a queue exactly when it equals "queue" ignoring ASCII case, and a topic exactly when it equals "topic" ignoring case. |
| Bridge.BuilderTypesResolve | impl/src/main/java/org/lorislab/quarkus/reactive/jms/tx/IncomingJmsTxMessage.java:199-205 | "queue", "topic" and "QUEUE" resolve to the matching destination kind. "fanout" fails. |
| Bridge.DispatchedMessage | impl/src/main/java/org/lorislab/quarkus/reactive/jms/tx/IncomingJmsTxMessage.java:158-192 | A successful send transmits this message to the destination resolved from name and type: the encoded body, the correlation id and delivery mode when set, the type as JMSType label, the reply-to resolved with the same type, and the property writes applied over the encoder's properties. |
| Bridge.ReplyToSameKind | impl/src/main/java/org/lorislab/quarkus/reactive/jms/tx/IncomingJmsTxMessage.java:176-179 | A reply-to destination has the same kind as the destination. |
| Bridge.DispatchFailureOrder | impl/src/main/java/org/lorislab/quarkus/reactive/jms/tx/IncomingJmsTxMessage.java:158-195 | When several failures apply, the send reports them in this order: encoding, then the reply-to (only a bad type fails it), then foreign properties, then the destination. |
| Bridge.NullTypeNeverSends | impl/src/main/java/org/lorislab/quarkus/reactive/jms/tx/IncomingJmsTxMessage.java:171-178 | A null type never lets a message through. Once the destination name is valid, the failure is a send failure. It is the null-type cause unless encoding or foreign properties fail first. |
| Bridge.SentScalarRoundTrip | impl/src/main/java/org/lorislab/quarkus/reactive/jms/tx/IncomingJmsTxMessage.java:171-174 | A sent integer, `Boolean` or `String` keeps its `_classname` even though the type overwrote JMSType. The receiver therefore resolves the class and decodes the original value, unless a property write replaces `_classname`. |
| Bridge.SentObjectRoundTrip | impl/src/main/java/org/lorislab/quarkus/reactive/jms/tx/IncomingJmsTxMessage.java:171-174 | A sent application object keeps its `_classname` even though the type overwrote JMSType, unless a property write replaces it. Well-formed receiving loaders that know the name resolve its class, and the JSON decoder reads the object back. |
| Bridge.SentBytesTaggedWithDestinationType | impl/src/main/java/org/lorislab/quarkus/reactive/jms/tx/IncomingJmsTxMessage.java:171-174 | A sent `byte[]` has no `_classname`, but its JMSType now holds the destination type. The receiver takes that as a class name, and cannot construct the envelope when no loader knows it. |
| Bridge.OrdersQueue | impl/src/main/java/org/lorislab/quarkus/reactive/jms/tx/OutgoingJmsTxMessageMetadata.java:80-98 | `withDestination("orders").withTypeQueue().build()` gives the queue metadata with every other field at its default. |
| Bridge.OrdersScenario | impl/src/main/java/org/lorislab/quarkus/reactive/jms/tx/IncomingJmsTxMessage.java:148-229 | An object sent to the queue "orders" is transmitted as its JSON text. It is tagged `_classname` with its class, and its JMSType is "queue". |
| Bridge.ReplyToWithoutType | impl/src/main/java/org/lorislab/quarkus/reactive/jms/tx/IncomingJmsTxMessage.java:176-178 | A reply-to with no destination type fails with the null-type cause before anything is sent. |
| Bridge.ReplyAndAcknowledge | impl/src/main/java/org/lorislab/quarkus/reactive/jms/tx/IncomingJmsTxMessage.java:117-146 | Receiving, replying through the envelope and then acknowledging (or rolling back) gives the session exactly the reply followed by one commit (or one rollback). |

## Left out

- `ack` and `rollback` run the commit or rollback on the executor and return
  a `CompletionStage`. The model performs them synchronously, and the
  executor is not modelled. A commit or rollback that fails, and so completes
  the stage exceptionally, is not modelled either.
- `createQueue` and `createTopic` throwing (an invalid destination name, for
  example) are not modelled: a valid type always yields the destination.
- `Stream.forEach` on a parallel stream neither keeps the encounter order nor
  keeps the session to one thread. The model sends the messages one after
  another in stream order.
- Floating point: `Double.valueOf`, `Float.valueOf` and their `toString`
  are opaque parameters. A `Double` or `Float` payload is carried by its
  printed text.
- JSON-B: `toJson` and `fromJson` are opaque parameters. Their exceptions are
  absent results.
- Class loading: the two loaders are finite maps from class name to class, and
  the context loader may be absent. Loading side effects are not modelled.
- `getStringProperty` and `getJMSType` throwing `JMSException` (then the
  class name stays null) is not modelled. Neither is a provider rejecting a
  header setter, nor `producer.send` failing in transport.
- A message with a null body, and a text message whose text is null, are not
  modelled. `Bridge.BytesRoundTrip` also relies on this. JMS 2.0 lets `getBody`
  return null for a message without a body, and a provider may treat an empty
  `BytesMessage` that way. Then an empty `byte[]` would come back as null.
- `Incoming.Encode`: the `payload.getClass().isPrimitive()` disjunct is
  left out. It is false for every object, so no payload that reaches this code
  can satisfy it.
- `JavaLang.ParseDecimal`: accepts ASCII digits only. `Integer.valueOf` also
  accepts other Unicode decimal digits.
- `JavaLang.ToLowerAscii`: lower-cases ASCII letters only. That decides the
  comparison with "queue", "topic" and "true" exactly, except for locale-specific
  mappings. In a Turkish default locale, "TOPIC".toLowerCase() gives "topıc"
  with a dotless i. There, `getDestination` rejects the upper-case spelling
  that the model accepts.
- `getMetadata`, `Metadata.of` and the metadata record's `of()` only wrap
  objects into a MicroProfile metadata bag, so they are not modelled.
  `getContext`, `getJmsMetadata` and the metadata getters are the fields
  themselves.
- JMS properties are modelled as string name/value writes. Typed property
  setters are not distinguished, and the class name of foreign
  `JmsProperties` stands for the object.
- `Bridge.DispatchedMessage` and `Incoming.Dispatch`: the delivery mode set with
  `setJMSDeliveryMode` is part of the message object handed to the producer.
  JMS reserves that setter for providers: `JMSProducer.send` overwrites the
  header with the producer's own delivery mode. So what a receiver sees is not
  modelled.
- The delivery mode is copied as given. A provider rejecting a value other than
  1 or 2 is not modelled.
- `JmsTxConnector` (channel wiring, context creation, the consumer loop) and
  `JmsStreamProcessor` (build-time registration) are not part of this model.
