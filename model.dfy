/** The registry entities the write-and-notify path touches. Keys and entities are
    Lombok value objects: two of them are equal exactly when their fields are. */
module Model {

  /** A JSON node as held in a specification's configuration or in a status. Its
      serialised text is produced by a serialiser that is not part of this model. */
  datatype Json =
    | JsonNull
    | JsonBool(b: bool)
    | JsonNumber(n: int)
    | JsonString(s: string)
    | JsonArray(items: seq<Json>)
    | JsonObject(members: seq<(string, Json)>)

  datatype Tag = Tag(name: string, value: string)

  datatype Specification = Specification(
    description: string,
    typeName: string,
    tags: seq<Tag>,
    configuration: Json)

  datatype Status = Status(objectNode: Json)

  /** Identifies a consumer: the stream it reads (domain, name, version), the zone, and its own name. */
  datatype ConsumerKey = ConsumerKey(
    streamDomain: string,
    streamName: string,
    streamVersion: int,
    zone: string,
    name: string)

  datatype Consumer = Consumer(key: ConsumerKey, specification: Specification, status: Status)

  /** Identifies the binding of a consumer to one infrastructure. */
  datatype ConsumerBindingKey = ConsumerBindingKey(
    streamDomain: string,
    streamName: string,
    streamVersion: int,
    infrastructureZone: string,
    infrastructureName: string,
    consumerName: string)

  datatype ConsumerBinding = ConsumerBinding(
    key: ConsumerBindingKey,
    specification: Specification,
    status: Status)
}
