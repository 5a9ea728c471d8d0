/** `OutgoingJmsTxMessageMetadata`: the delivery instructions an application
    attaches to a message it sends, and the builder that makes them. The source's
    `type` field is called `destinationType` here (`type` is a Dafny keyword); it
    names the destination kind and is also written into the JMSType label. */
module Outgoing {
  import opened Wrappers
  import opened JavaLang
  import opened Jms

  const TOPIC: string := "topic"
  const QUEUE: string := "queue"

  /** The delivery mode that means "leave the provider's default". */
  const UNSET_DELIVERY_MODE: Int32 := -1

  /** Immutable: every field is fixed by the constructor and read back by its
      getter (the datatype's destructors). `None` is a null reference. */
  datatype OutgoingJmsTxMessageMetadata = OutgoingJmsTxMessageMetadata(
    correlationId: Option<string>,
    replyTo: Option<string>,
    destination: Option<string>,
    deliveryMode: Int32,
    destinationType: Option<string>,
    properties: Option<JmsProperties>)

  /** What a builder holds before any `with*` call. */
  const DEFAULTS: OutgoingJmsTxMessageMetadata :=
    OutgoingJmsTxMessageMetadata(None, None, None, UNSET_DELIVERY_MODE, None, None)

  class OutputJmsTxMessageMetadataBuilder {
    var correlationId: Option<string>
    var replyTo: Option<string>
    var destination: Option<string>
    var deliveryMode: Int32
    var destinationType: Option<string>
    var properties: Option<JmsProperties>

    /** A fresh builder: delivery mode -1 and every reference null. */
    constructor ()
      ensures correlationId.None? && replyTo.None? && destination.None?
      ensures deliveryMode == UNSET_DELIVERY_MODE
      ensures destinationType.None? && properties.None?
    {
      correlationId, replyTo, destination := None, None, None;
      deliveryMode := UNSET_DELIVERY_MODE;
      destinationType, properties := None, None;
    }

    /** `build()`: a metadata value holding the six fields as they are now;
        the builder itself is only read. */
    function Build(): (md: OutgoingJmsTxMessageMetadata)
      reads this
      ensures md.correlationId == correlationId && md.replyTo == replyTo
      ensures md.destination == destination && md.deliveryMode == deliveryMode
      ensures md.destinationType == destinationType && md.properties == properties
    {
      OutgoingJmsTxMessageMetadata(correlationId, replyTo, destination, deliveryMode, destinationType, properties)
    }

    method WithCorrelationId(correlationId: Option<string>) returns (self: OutputJmsTxMessageMetadataBuilder)
      modifies this
      ensures self == this
      ensures Build() == old(Build()).(correlationId := correlationId)
    {
      this.correlationId := correlationId;
      self := this;
    }

    method WithReplyTo(replyTo: Option<string>) returns (self: OutputJmsTxMessageMetadataBuilder)
      modifies this
      ensures self == this
      ensures Build() == old(Build()).(replyTo := replyTo)
    {
      this.replyTo := replyTo;
      self := this;
    }

    method WithDestination(destination: Option<string>) returns (self: OutputJmsTxMessageMetadataBuilder)
      modifies this
      ensures self == this
      ensures Build() == old(Build()).(destination := destination)
    {
      this.destination := destination;
      self := this;
    }

    method WithDeliveryMode(deliveryMode: Int32) returns (self: OutputJmsTxMessageMetadataBuilder)
      modifies this
      ensures self == this
      ensures Build() == old(Build()).(deliveryMode := deliveryMode)
    {
      this.deliveryMode := deliveryMode;
      self := this;
    }

    /** `withType(type)`: any text, null included. */
    method WithType(destinationType: Option<string>) returns (self: OutputJmsTxMessageMetadataBuilder)
      modifies this
      ensures self == this
      ensures Build() == old(Build()).(destinationType := destinationType)
    {
      this.destinationType := destinationType;
      self := this;
    }

    method WithTypeQueue() returns (self: OutputJmsTxMessageMetadataBuilder)
      modifies this
      ensures self == this
      ensures Build() == old(Build()).(destinationType := Some(QUEUE))
    {
      destinationType := Some(QUEUE);
      self := this;
    }

    method WithTypeTopic() returns (self: OutputJmsTxMessageMetadataBuilder)
      modifies this
      ensures self == this
      ensures Build() == old(Build()).(destinationType := Some(TOPIC))
    {
      destinationType := Some(TOPIC);
      self := this;
    }

    method WithProperties(properties: Option<JmsProperties>) returns (self: OutputJmsTxMessageMetadataBuilder)
      modifies this
      ensures self == this
      ensures Build() == old(Build()).(properties := properties)
    {
      this.properties := properties;
      self := this;
    }
  }

  /** `OutgoingJmsTxMessageMetadata.builder()`. */
  method Builder() returns (builder: OutputJmsTxMessageMetadataBuilder)
    ensures fresh(builder) && builder.Build() == DEFAULTS
  {
    builder := new OutputJmsTxMessageMetadataBuilder();
  }

  // ---------------------------------------------------------------------------
  // Chains of `with*` calls

  /** One `with*` call of the builder, with its argument. */
  datatype Setting =
    | CorrelationIdSetting(correlationId: Option<string>)
    | ReplyToSetting(replyTo: Option<string>)
    | DestinationSetting(destination: Option<string>)
    | DeliveryModeSetting(deliveryMode: Int32)
    | TypeSetting(destinationType: Option<string>)
    | TypeQueueSetting
    | TypeTopicSetting
    | PropertiesSetting(properties: Option<JmsProperties>)

  /** The six fields of the metadata. */
  datatype Field = CorrelationIdField | ReplyToField | DestinationField | DeliveryModeField | TypeField | PropertiesField

  /** The field a `with*` call writes; the three type setters share one. */
  function FieldOf(setting: Setting): Field {
    match setting
    case CorrelationIdSetting(_) => CorrelationIdField
    case ReplyToSetting(_) => ReplyToField
    case DestinationSetting(_) => DestinationField
    case DeliveryModeSetting(_) => DeliveryModeField
    case TypeSetting(_) => TypeField
    case TypeQueueSetting => TypeField
    case TypeTopicSetting => TypeField
    case PropertiesSetting(_) => PropertiesField
  }

  /** `md` holds in the setting's field the value the setting writes. */
  predicate Holds(md: OutgoingJmsTxMessageMetadata, setting: Setting) {
    match setting
    case CorrelationIdSetting(c) => md.correlationId == c
    case ReplyToSetting(r) => md.replyTo == r
    case DestinationSetting(d) => md.destination == d
    case DeliveryModeSetting(m) => md.deliveryMode == m
    case TypeSetting(t) => md.destinationType == t
    case TypeQueueSetting => md.destinationType == Some(QUEUE)
    case TypeTopicSetting => md.destinationType == Some(TOPIC)
    case PropertiesSetting(p) => md.properties == p
  }

  /** `a` and `b` hold the same value in `field`. */
  predicate Agree(a: OutgoingJmsTxMessageMetadata, b: OutgoingJmsTxMessageMetadata, field: Field) {
    match field
    case CorrelationIdField => a.correlationId == b.correlationId
    case ReplyToField => a.replyTo == b.replyTo
    case DestinationField => a.destination == b.destination
    case DeliveryModeField => a.deliveryMode == b.deliveryMode
    case TypeField => a.destinationType == b.destinationType
    case PropertiesField => a.properties == b.properties
  }

  /** The metadata a builder holds after one more `with*` call: the call's
      field holds its value and every other field is unchanged. */
  function Apply(md: OutgoingJmsTxMessageMetadata, setting: Setting): (r: OutgoingJmsTxMessageMetadata)
    ensures Holds(r, setting)
    ensures forall field :: field != FieldOf(setting) ==> Agree(r, md, field)
  {
    match setting
    case CorrelationIdSetting(c) => md.(correlationId := c)
    case ReplyToSetting(r) => md.(replyTo := r)
    case DestinationSetting(d) => md.(destination := d)
    case DeliveryModeSetting(m) => md.(deliveryMode := m)
    case TypeSetting(t) => md.(destinationType := t)
    case TypeQueueSetting => md.(destinationType := Some(QUEUE))
    case TypeTopicSetting => md.(destinationType := Some(TOPIC))
    case PropertiesSetting(p) => md.(properties := p)
  }

  /** The metadata after a chain of `with*` calls, in order. */
  function ApplyAll(md: OutgoingJmsTxMessageMetadata, settings: seq<Setting>): OutgoingJmsTxMessageMetadata {
    if settings == [] then md
    else Apply(ApplyAll(md, settings[..|settings| - 1]), settings[|settings| - 1])
  }

  /** A value is kept in its field by a call that writes another field. */
  lemma HoldsKept(md: OutgoingJmsTxMessageMetadata, setting: Setting, later: Setting)
    requires Holds(md, setting) && FieldOf(later) != FieldOf(setting)
    ensures Holds(Apply(md, later), setting)
  {
    assert Agree(Apply(md, later), md, FieldOf(setting));
  }

  /** The last call that writes a field decides its value. */
  lemma {:induction false} LastSettingWins(md: OutgoingJmsTxMessageMetadata, settings: seq<Setting>, i: nat)
    requires i < |settings|
    requires forall j :: i < j < |settings| ==> FieldOf(settings[j]) != FieldOf(settings[i])
    ensures Holds(ApplyAll(md, settings), settings[i])
  {
    var prefix := settings[..|settings| - 1];
    if i < |settings| - 1 {
      LastSettingWins(md, prefix, i);
      assert prefix[i] == settings[i];
      HoldsKept(ApplyAll(md, prefix), settings[i], settings[|settings| - 1]);
    }
  }

  /** A field no call writes keeps its starting value. */
  lemma {:induction false} UnwrittenFieldKept(md: OutgoingJmsTxMessageMetadata, settings: seq<Setting>, field: Field)
    requires forall j :: 0 <= j < |settings| ==> FieldOf(settings[j]) != field
    ensures Agree(ApplyAll(md, settings), md, field)
  {
    if settings != [] {
      var prefix := settings[..|settings| - 1];
      UnwrittenFieldKept(md, prefix, field);
      assert Agree(ApplyAll(md, settings), ApplyAll(md, prefix), field);
    }
  }

  /** A fresh builder, written by `settings` in order and then built. */
  method BuildChain(settings: seq<Setting>) returns (md: OutgoingJmsTxMessageMetadata)
    ensures md == ApplyAll(DEFAULTS, settings)
  {
    var b := Builder();
    for i := 0 to |settings|
      invariant fresh(b)
      invariant b.Build() == ApplyAll(DEFAULTS, settings[..i])
    {
      assert settings[..i + 1][..i] == settings[..i];
      match settings[i]
      case CorrelationIdSetting(c) => b := b.WithCorrelationId(c);
      case ReplyToSetting(r) => b := b.WithReplyTo(r);
      case DestinationSetting(d) => b := b.WithDestination(d);
      case DeliveryModeSetting(m) => b := b.WithDeliveryMode(m);
      case TypeSetting(t) => b := b.WithType(t);
      case TypeQueueSetting => b := b.WithTypeQueue();
      case TypeTopicSetting => b := b.WithTypeTopic();
      case PropertiesSetting(p) => b := b.WithProperties(p);
    }
    assert settings[..|settings|] == settings;
    md := b.Build();
  }

  /** One fixed chain: the type written three times and the delivery mode
      twice; the built metadata holds the last of each, the correlation id and
      destination written once, and the defaults for reply-to and properties. */
  method ChainedBuild() returns (md: OutgoingJmsTxMessageMetadata)
    ensures md == OutgoingJmsTxMessageMetadata(Some("c-1"), None, Some("orders"), 2, Some("Topic"), None)
  {
    var b := Builder();
    b := b.WithCorrelationId(Some("c-1"));
    b := b.WithDestination(Some("orders"));
    b := b.WithTypeQueue();
    b := b.WithDeliveryMode(1);
    b := b.WithTypeTopic();
    b := b.WithType(Some("Topic"));
    b := b.WithDeliveryMode(2);
    md := b.Build();
  }
}
