/** The wire records the notification path produces: a key that nests its parent keys,
    and an event record with one slot per entity kind. */
module Avro {

  import opened Wrappers

  /** The key types of the wire schema, under their schema symbols. */
  datatype AvroKeyType =
    | DOMAIN | ZONE | STREAM | STREAM_VERSION | SCHEMA
    | PRODUCER | CONSUMER | PRODUCER_BINDING | CONSUMER_BINDING | STREAM_BINDING

  /** A wire key: its own id and type, and the key of the entity that contains it
      (none for a root). */
  datatype AvroKey = AvroKey(id: string, keyType: AvroKeyType, parent: Option<AvroKey>)

  /** One level of a key chain, without its parent. */
  datatype KeyNode = KeyNode(keyType: AvroKeyType, id: string)

  /** The levels of a key from its root down to the key itself: the last entry is the key's
      own node, and each entry's parent is the entry before it. */
  function Path(k: AvroKey): (p: seq<KeyNode>)
    ensures |p| >= 1 && p[|p| - 1] == KeyNode(k.keyType, k.id)
    ensures k.parent.None? <==> |p| == 1
    ensures k.parent.Some? ==> p[..|p| - 1] == Path(k.parent.value)
    decreases k
  {
    match k.parent
    case None => [KeyNode(k.keyType, k.id)]
    case Some(q) => Path(q) + [KeyNode(k.keyType, k.id)]
  }

  /** Builds the key whose levels, root first, are `nodes`. */
  function Nest(nodes: seq<KeyNode>): (k: AvroKey)
    requires |nodes| >= 1
    ensures KeyNode(k.keyType, k.id) == nodes[|nodes| - 1]
    ensures k.parent.None? <==> |nodes| == 1
    decreases |nodes|
  {
    var last := nodes[|nodes| - 1];
    AvroKey(last.id, last.keyType, if |nodes| == 1 then None else Some(Nest(nodes[..|nodes| - 1])))
  }

  /** Nesting a list of levels and reading the levels back gives the list. */
  lemma {:induction false} PathOfNest(nodes: seq<KeyNode>)
    requires |nodes| >= 1
    ensures Path(Nest(nodes)) == nodes
    decreases |nodes|
  {
    if |nodes| > 1 {
      var init, last := nodes[..|nodes| - 1], nodes[|nodes| - 1];
      NestSnoc(init, last, nodes);
      PathOfNest(init);
      PathSnoc(Nest(init), last);
    }
  }

  /** Nesting one more level puts the nest of the other levels under it. */
  lemma NestSnoc(init: seq<KeyNode>, last: KeyNode, nodes: seq<KeyNode>)
    requires |init| >= 1 && nodes == init + [last]
    ensures Nest(nodes) == AvroKey(last.id, last.keyType, Some(Nest(init)))
  {
    assert nodes[..|nodes| - 1] == init;
  }

  /** A key's levels are its parent's levels followed by its own node. */
  lemma PathSnoc(parent: AvroKey, last: KeyNode)
    ensures Path(AvroKey(last.id, last.keyType, Some(parent))) == Path(parent) + [last]
  {
  }

  /** A key is determined by its levels: rebuilding it from its path gives the key back. */
  lemma {:induction false} NestOfPath(k: AvroKey)
    ensures Nest(Path(k)) == k
    decreases k
  {
    if k.parent.Some? {
      NestOfPath(k.parent.value);
    }
  }

  /** The outermost key of the chain: it has no parent and is the first level of the path. */
  function Root(k: AvroKey): (r: AvroKey)
    ensures r.parent.None?
    ensures Path(k)[0] == KeyNode(r.keyType, r.id)
    decreases k
  {
    match k.parent
    case None => k
    case Some(q) => Root(q)
  }

  datatype AvroTag = AvroTag(name: string, value: string)

  /** The consumer payload of an event record. */
  datatype AvroConsumer = AvroConsumer(
    name: string,
    streamDomain: string,
    streamVersion: int,
    streamName: string,
    zone: string,
    description: string,
    tags: seq<AvroTag>,
    typeName: string,
    configurationString: string,
    statusString: string)

  /** The payload of an entity kind whose record layout is not part of this model. */
  datatype OtherRecord = OtherRecord(fields: seq<(string, string)>)

  /** An event record: one optional slot per entity kind; a record announces one entity,
      so exactly one slot is meant to be filled. */
  datatype AvroEvent = AvroEvent(
    domainEntity: Option<OtherRecord>,
    schemaEntity: Option<OtherRecord>,
    streamEntity: Option<OtherRecord>,
    producerEntity: Option<OtherRecord>,
    consumerEntity: Option<AvroConsumer>,
    streamBindingEntity: Option<OtherRecord>,
    producerBindingEntity: Option<OtherRecord>,
    consumerBindingEntity: Option<OtherRecord>)

  /** `AvroEvent.newBuilder()` before any slot is set. */
  function EmptyEvent(): (e: AvroEvent)
    ensures e.consumerEntity.None?
  {
    AvroEvent(None, None, None, None, None, None, None, None)
  }

  /** The record carries a consumer payload and nothing else. */
  predicate OnlyConsumerEntity(e: AvroEvent) {
    && e.consumerEntity.Some?
    && e.domainEntity.None? && e.schemaEntity.None? && e.streamEntity.None? && e.producerEntity.None?
    && e.streamBindingEntity.None? && e.producerBindingEntity.None? && e.consumerBindingEntity.None?
  }
}
