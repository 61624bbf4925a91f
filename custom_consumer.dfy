/** The operator-supplied consumer mapping `myCustomKey` / `myCustomEvent`, and how the
    consumer event handler picks it over the built-in mapping when the custom parser is
    enabled. */
module CustomConsumerMethods {

  import opened Wrappers
  import opened Model
  import opened Avro
  import Text

  /** `myCustomKey`: the consumer's key nested in its version, stream, zone and domain keys.
      The version level is typed STREAM, like the stream level above it. */
  function MyCustomKey(consumer: Consumer): (r: AvroKey)
    ensures var k := consumer.key;
      Path(r) == [KeyNode(DOMAIN, k.streamDomain), KeyNode(ZONE, k.zone), KeyNode(STREAM, k.streamName),
                  KeyNode(STREAM, Text.IntToString(k.streamVersion)), KeyNode(CONSUMER, k.name)]
    ensures r.keyType == CONSUMER && r.id == consumer.key.name
    ensures Root(r) == AvroKey(consumer.key.streamDomain, DOMAIN, None)
  {
    var k := consumer.key;
    var domainKey := AvroKey(k.streamDomain, DOMAIN, None);
    var zoneKey := AvroKey(k.zone, ZONE, Some(domainKey));
    var streamKey := AvroKey(k.streamName, STREAM, Some(zoneKey));
    var streamVersionKey := AvroKey(Text.IntToString(k.streamVersion), STREAM, Some(streamKey));
    var avroKey := AvroKey(k.name, CONSUMER, Some(streamVersionKey));
    assert Path(zoneKey) == [KeyNode(DOMAIN, k.streamDomain), KeyNode(ZONE, k.zone)];
    assert Path(streamKey) == Path(zoneKey) + [KeyNode(STREAM, k.streamName)];
    assert Path(streamVersionKey) == Path(streamKey) + [KeyNode(STREAM, Text.IntToString(k.streamVersion))];
    assert Path(avroKey) == Path(streamVersionKey) + [KeyNode(CONSUMER, k.name)];
    avroKey
  }

  /** The key fields a consumer record carries, read back as a consumer key. */
  function RecordKey(rec: AvroConsumer): ConsumerKey {
    ConsumerKey(rec.streamDomain, rec.streamName, rec.streamVersion, rec.zone, rec.name)
  }

  /** `myCustomEvent`: a record whose only payload is the consumer's. The payload carries
      the consumer's key, its description and type, no tags, and the configuration and
      status as text produced by `serialise`. */
  function MyCustomEvent(consumer: Consumer, serialise: Json -> string): (r: AvroEvent)
    ensures OnlyConsumerEntity(r)
    ensures RecordKey(r.consumerEntity.value) == consumer.key
    ensures r.consumerEntity.value.description == consumer.specification.description
    ensures r.consumerEntity.value.typeName == consumer.specification.typeName
    ensures r.consumerEntity.value.tags == []
    ensures r.consumerEntity.value.configurationString == serialise(consumer.specification.configuration)
    ensures r.consumerEntity.value.statusString == serialise(consumer.status.objectNode)
  {
    var k := consumer.key;
    var spec := consumer.specification;
    var record := AvroConsumer(
      k.name, k.streamDomain, k.streamVersion, k.streamName, k.zone,
      spec.description, [], spec.typeName,
      serialise(spec.configuration), serialise(consumer.status.objectNode));
    EmptyEvent().(consumerEntity := Some(record))
  }

  /** The key built from the containment hierarchy with a STREAM_VERSION version level:
      domain, zone, stream, stream version, consumer. */
  function ComposedConsumerKey(k: ConsumerKey): AvroKey {
    Nest([KeyNode(DOMAIN, k.streamDomain), KeyNode(ZONE, k.zone), KeyNode(STREAM, k.streamName),
          KeyNode(STREAM_VERSION, Text.IntToString(k.streamVersion)), KeyNode(CONSUMER, k.name)])
  }

  /** `myCustomKey` agrees with the composed key on every level except the version level,
      where it has the same id but type STREAM instead of STREAM_VERSION; so the two keys
      differ, and a record keyed by the custom method is told apart from the default one. */
  lemma {:induction false} CustomKeyDiffersOnlyAtVersionLevel(consumer: Consumer)
    ensures var custom, composed := Path(MyCustomKey(consumer)), Path(ComposedConsumerKey(consumer.key));
      && |custom| == |composed| == 5
      && (forall i :: 0 <= i < 5 && i != 3 ==> custom[i] == composed[i])
      && custom[3] == composed[3].(keyType := STREAM)
      && composed[3].keyType == STREAM_VERSION
    ensures MyCustomKey(consumer) != ComposedConsumerKey(consumer.key)
  {
    var k := consumer.key;
    PathOfNest([KeyNode(DOMAIN, k.streamDomain), KeyNode(ZONE, k.zone), KeyNode(STREAM, k.streamName),
                KeyNode(STREAM_VERSION, Text.IntToString(k.streamVersion)), KeyNode(CONSUMER, k.name)]);
  }

  /** `ConsumerEventHandlerForKafka`'s two mapping functions. */
  datatype ConsumerEventHandler = ConsumerEventHandler(
    consumerToKeyRecord: Consumer -> AvroKey,
    consumerToValueRecord: Consumer -> AvroEvent)

  /** The custom consumer parser configuration: the enabled switch and the key and value
      methods that the configured class and method names resolve to. */
  datatype CustomConsumerParser = CustomConsumerParser(
    enabled: bool,
    keyParser: Consumer -> AvroKey,
    valueParser: Consumer -> AvroEvent)

  /** The handler's mapping functions, resolved once at startup: the custom methods when the
      custom parser is enabled, otherwise the built-in ones. */
  function ResolveConsumerHandler(parser: CustomConsumerParser, defaultKey: Consumer -> AvroKey,
                                  defaultValue: Consumer -> AvroEvent): (h: ConsumerEventHandler)
    ensures parser.enabled ==> h.consumerToKeyRecord == parser.keyParser && h.consumerToValueRecord == parser.valueParser
    ensures !parser.enabled ==> h.consumerToKeyRecord == defaultKey && h.consumerToValueRecord == defaultValue
  {
    if parser.enabled then ConsumerEventHandler(parser.keyParser, parser.valueParser)
    else ConsumerEventHandler(defaultKey, defaultValue)
  }

  /** With the custom parser enabled and pointed at `myCustomKey` / `myCustomEvent`, the
      handler's key and value for any consumer are exactly what those methods return, and
      the record's consumer payload is present. */
  lemma CustomMethodsDriveHandler(consumer: Consumer, serialise: Json -> string,
                                  defaultKey: Consumer -> AvroKey, defaultValue: Consumer -> AvroEvent)
    ensures var h := ResolveConsumerHandler(
        CustomConsumerParser(true, MyCustomKey, c => MyCustomEvent(c, serialise)), defaultKey, defaultValue);
      && h.consumerToKeyRecord(consumer) == MyCustomKey(consumer)
      && h.consumerToValueRecord(consumer) == MyCustomEvent(consumer, serialise)
      && h.consumerToValueRecord(consumer).consumerEntity.Some?
  {
  }
}
