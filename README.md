# Stream registry: consumer-binding writes and their notifications

A Dafny model of three pieces of the stream registry's write-and-notify path.

- **ConsumerBindingService** (module `ConsumerBindingServices`). `create` refuses a key that is already stored. `update` refuses a key that is not stored. Both then run the validator, replace the binding's specification with the handler service's answer, and save. `save` writes the row, hands the repository's answer (possibly null) to the notification emitter, and returns that answer as an Optional. `upsert` picks create or update by whether the key is stored. `read`, `exists`, `findAll` and `find` are queries. `delete` always throws. The repository is an object holding a `map` from binding key to binding. The validator and the handler service are function values given to the service.
- **The notification emitter** (module `Events`). It builds the event `{source, eventType, entity}`. The source is the emitter's prefix followed by the lower-cased event type. It multicasts the event and sends an exception from the multicaster to `onFailedEmitting`, never to the caller. A null entity announces nothing. The multicaster and the emitter are classes whose logs grow by appending. The pure function `Emit` states what one emission does to those logs. Module `EmitterScenarios` replays each emitter test case against the service.
- **The custom consumer mapping** (modules `Avro` and `CustomConsumerMethods`). `myCustomKey` builds a five-level wire key: domain, zone, stream, version, consumer. Each level's parent is the level above it, and the version level is typed `STREAM`. `myCustomEvent` builds an event record whose only payload is the consumer's. The consumer event handler uses these two functions when the custom parser is enabled. `Path` and `Nest` convert between a key and its list of levels, and each inverts the other.

Module `Text` holds ASCII lower-casing and `Integer.toString`. It also holds a decimal parser that inverts `Integer.toString`, so distinct stream versions give distinct version ids.

Three points of the code shape the model:
- The source tag is `getSourceEventPrefix(entity)` followed by the lower-cased event type (NotificationEventEmitterDomainServiceTest.java:75).
- One `enabled` property selects both custom consumer methods (CustomConsumerMethodsLoadingTest.java:76).
- `myCustomKey` types the version level `STREAM`. `ComposedConsumerKey` uses `STREAM_VERSION` at that level, the type the default stream keys carry (NotificationEventListenerKafkaIntegrationTest.java:175). It is used only to show where the two keys differ.

`Avro.Path` and `Avro.Nest` are the vocabulary for key chains. `Path` lists a key's levels from the root down to the key itself. `Nest` builds the key whose parent chain is a given list of levels. The lemmas below state that each inverts the other.

The repository keeps one invariant, `ConsumerBindingRepository.Valid`: every row is filed under its own key, which is how `save` files it. The constructor demands it of the initial rows, and every write preserves it.

## Model

| member | source | states |
|---|---|---|
| `ConsumerBindingServices.CreateOutcome` | core/src/main/java/com/expediagroup/streamplatform/streamregistry/core/services/ConsumerBindingService.java:49-55 | create fails with "already exists" exactly when the key is stored; otherwise it fails exactly when the validator rejects; on success the saved binding keeps key and status and takes the handler's insert specification |
| `ConsumerBindingServices.UpdateOutcome` | core/src/main/java/com/expediagroup/streamplatform/streamregistry/core/services/ConsumerBindingService.java:58-65 | update fails with "doesn't exist" (naming the key) exactly when the key is absent; otherwise it fails exactly when the validator rejects against the existing binding; on success the binding takes the handler's update specification, computed from the existing binding |
| `ConsumerBindingServices.ConsumerBindingService.Create` | core/src/main/java/com/expediagroup/streamplatform/streamregistry/core/services/ConsumerBindingService.java:49-56 | on refusal the error is returned and the store and both notification logs are unchanged; on success the row is written, one CREATE emission is made with the repository's answer, and that answer is returned whether or not multicasting threw |
| `ConsumerBindingServices.ConsumerBindingService.Update` | core/src/main/java/com/expediagroup/streamplatform/streamregistry/core/services/ConsumerBindingService.java:58-66 | the same as Create for the update path: refusal changes nothing; success writes the row and makes one UPDATE emission |
| `ConsumerBindingServices.ConsumerBindingService.Save` | core/src/main/java/com/expediagroup/streamplatform/streamregistry/core/services/ConsumerBindingService.java:68-72 | the row is written, the emitter receives the repository's answer even when it is null, and the result is `Optional.ofNullable` of that same answer |
| `ConsumerBindingServices.ConsumerBindingService.Upsert` | core/src/main/java/com/expediagroup/streamplatform/streamregistry/core/services/ConsumerBindingService.java:74-76 | behaves as Create when the key is absent and as Update when it is present |
| `ConsumerBindingServices.UpsertFailsOnlyOnRejection` | core/src/main/java/com/expediagroup/streamplatform/streamregistry/core/services/ConsumerBindingService.java:74-76 | upsert never fails with "already exists" or "doesn't exist"; it fails only when the validator rejects |
| `ConsumerBindingServices.ConsumerBindingService.Read` | core/src/main/java/com/expediagroup/streamplatform/streamregistry/core/services/ConsumerBindingService.java:78-80 | read is present exactly when the key is stored, and then holds the stored binding; it changes nothing |
| `ConsumerBindingServices.ConsumerBindingService.Exists` | core/src/main/java/com/expediagroup/streamplatform/streamregistry/core/services/ConsumerBindingService.java:90-92 | exists holds exactly when read is present, that is, when the key is stored |
| `ConsumerBindingServices.ConsumerBindingService.FindAll` | core/src/main/java/com/expediagroup/streamplatform/streamregistry/core/services/ConsumerBindingService.java:82-84 | the result holds exactly the stored bindings that satisfy the filter, each exactly once, in the repository's listing order: it is the listing of the stored keys whose rows pass the filter |
| `ConsumerBindingServices.Filter` | core/src/main/java/com/expediagroup/streamplatform/streamregistry/core/services/ConsumerBindingService.java:83 | a stream filter keeps exactly the elements that satisfy the predicate, each as often as it occurs in the input, and drops every other element; it never lengthens the list |
| `ConsumerBindingServices.FilterAppend` | core/src/main/java/com/expediagroup/streamplatform/streamregistry/core/services/ConsumerBindingService.java:83 | a stream filter keeps order: filtering a concatenation gives the filtered parts in the same order |
| `ConsumerBindingServices.FilterRowsInOrder` | core/src/main/java/com/expediagroup/streamplatform/streamregistry/core/services/ConsumerBindingService.java:83 | filtering the listed rows gives the rows of the listed keys that pass the filter, in listing order |
| `ConsumerBindingServices.ConsumerBindingService.Find` | core/src/main/java/com/expediagroup/streamplatform/streamregistry/core/services/ConsumerBindingService.java:94-104 | empty exactly when no stored binding matches the consumer key's stream domain, name, version, zone and consumer name; otherwise the first match in repository order |
| `ConsumerBindingServices.ExampleFor` | core/src/main/java/com/expediagroup/streamplatform/streamregistry/core/services/ConsumerBindingService.java:95-102 | the search example copies stream domain, name, version, zone and consumer name from the consumer key and leaves the infrastructure name null; a binding matches it exactly when those five fields agree |
| `ConsumerBindingServices.FilterHeadIsFirstMatch` | core/src/main/java/com/expediagroup/streamplatform/streamregistry/core/services/ConsumerBindingService.java:103 | `findFirst` after a filter gives the first element of the source list that satisfies the filter |
| `ConsumerBindingServices.ConsumerBindingService.Delete` | core/src/main/java/com/expediagroup/streamplatform/streamregistry/core/services/ConsumerBindingService.java:86-88 | delete always fails with UnsupportedOperationException and modifies nothing |
| `ConsumerBindingServices.ConsumerBindingRepository.FindById` | core/src/main/java/com/expediagroup/streamplatform/streamregistry/core/services/ConsumerBindingService.java:78-80 | `findById` is present exactly for stored keys and returns the stored row |
| `ConsumerBindingServices.ConsumerBindingRepository.FindAll` | core/src/main/java/com/expediagroup/streamplatform/streamregistry/core/services/ConsumerBindingService.java:83 | `findAll()` lists every stored binding and nothing else, one entry per row, in listing order; when every row is filed under its own key, each stored binding occurs exactly once |
| `ConsumerBindingServices.ConsumerBindingRepository.Save` | core/src/main/java/com/expediagroup/streamplatform/streamregistry/core/services/ConsumerBindingService.java:69 | save writes the row under its key and answers with it, or with null when the repository is set up to answer null; it keeps every row filed under its own key |
| `Text.LowerCase` | core/src/test/java/com/expediagroup/streamplatform/streamregistry/core/events/NotificationEventEmitterDomainServiceTest.java:75 | lower-casing keeps the length and lower-cases each character in place |
| `Events.SourceTag` | core/src/test/java/com/expediagroup/streamplatform/streamregistry/core/events/NotificationEventEmitterDomainServiceTest.java:75 | the source tag is the emitter's prefix followed by "create" or "update" |
| `Events.SourceTagIdentifiesEventType` | core/src/test/java/com/expediagroup/streamplatform/streamregistry/core/events/NotificationEventEmitterDomainServiceTest.java:75-99 | under one prefix, the CREATE and UPDATE source tags differ |
| `Events.EmitSkipsNull` | core/src/test/java/com/expediagroup/streamplatform/streamregistry/core/events/NotificationEventEmitterDomainServiceTest.java:118-156 | a null entity gets no multicast and no `onFailedEmitting` call |
| `Events.EmitMulticastsOnce` | core/src/test/java/com/expediagroup/streamplatform/streamregistry/core/events/NotificationEventEmitterDomainServiceTest.java:70-116 | a present entity is multicast exactly once as {source, type, entity}; with no exception, no failure is reported |
| `Events.EmitRoutesFailureOnce` | core/src/test/java/com/expediagroup/streamplatform/streamregistry/core/events/NotificationEventEmitterDomainServiceTest.java:182-207 | when the multicaster throws, `onFailedEmitting` gets that same event exactly once |
| `Events.NotificationEventEmitter.EmitEventOnProcessedEntity` | core/src/test/java/com/expediagroup/streamplatform/streamregistry/core/events/NotificationEventEmitterDomainServiceTest.java:62-65 | the emitter's logs after one call are those `Emit` gives from the logs before it; the call never fails |
| `Events.NotificationEventEmitter.OnFailedEmitting` | core/src/test/java/com/expediagroup/streamplatform/streamregistry/core/events/NotificationEventEmitterDomainServiceTest.java:199-203 | the failure hook records the event whose multicast failed |
| `Events.ApplicationEventMulticaster.MulticastEvent` | core/src/test/java/com/expediagroup/streamplatform/streamregistry/core/events/NotificationEventEmitterDomainServiceTest.java:195-200 | every multicast call is recorded, including one that throws |
| `EmitterScenarios.CreateEmitsOneEvent` | core/src/test/java/com/expediagroup/streamplatform/streamregistry/core/events/NotificationEventEmitterDomainServiceTest.java:70-92 | create with a saving repository multicasts exactly [{prefix+"create", CREATE, entity}], reports no failure and returns the entity |
| `EmitterScenarios.UpdateEmitsOneEvent` | core/src/test/java/com/expediagroup/streamplatform/streamregistry/core/events/NotificationEventEmitterDomainServiceTest.java:94-116 | update of a stored entity multicasts exactly [{prefix+"update", UPDATE, entity}] and reports no failure |
| `EmitterScenarios.NullSaveEmitsNothing` | core/src/test/java/com/expediagroup/streamplatform/streamregistry/core/events/NotificationEventEmitterDomainServiceTest.java:118-156 | when save answers null, on create or update, nothing is multicast, no failure is reported, and the result is empty |
| `EmitterScenarios.UpsertOfExistingEmitsUpdate` | core/src/test/java/com/expediagroup/streamplatform/streamregistry/core/events/NotificationEventEmitterDomainServiceTest.java:158-180 | upsert of a stored entity takes the update path and multicasts exactly one UPDATE event |
| `EmitterScenarios.CreateSurvivesMulticasterException` | core/src/test/java/com/expediagroup/streamplatform/streamregistry/core/events/NotificationEventEmitterDomainServiceTest.java:182-207 | with a throwing multicaster, the event is multicast once and reported to `onFailedEmitting` once, and create still returns the saved entity |
| `CustomConsumerMethods.MyCustomKey` | notification-support/src/test/java/com/expediagroup/streamplatform/streamregistry/core/events/CustomConsumerMethodsLoadingTest.java:108-147 | the key's levels from the root are DOMAIN(domain), ZONE(zone), STREAM(stream name), STREAM(decimal version), CONSUMER(name); the root is the domain key with no parent |
| `Avro.Root` | notification-support/src/test/java/com/expediagroup/streamplatform/streamregistry/core/events/CustomConsumerMethodsLoadingTest.java:115-118 | following parents ends at a key with no parent, which is the first level of the path |
| `Avro.PathOfNest` | notification-support/src/test/java/com/expediagroup/streamplatform/streamregistry/core/events/CustomConsumerMethodsLoadingTest.java:115-142 | nesting a list of levels and reading them back gives the same list |
| `Avro.NestOfPath` | notification-support/src/test/java/com/expediagroup/streamplatform/streamregistry/core/events/CustomConsumerMethodsLoadingTest.java:115-142 | a key is rebuilt exactly from its list of levels |
| `Text.IntToString` | notification-support/src/test/java/com/expediagroup/streamplatform/streamregistry/core/events/CustomConsumerMethodsLoadingTest.java:133 | the version id is non-empty and starts with '-' exactly for a negative version |
| `Text.NatToDecimal` | notification-support/src/test/java/com/expediagroup/streamplatform/streamregistry/core/events/CustomConsumerMethodsLoadingTest.java:133 | a non-empty string of decimal digits that starts with '0' exactly when the number is zero and has a leading '0' only when it is the single digit, so zero is "0" and no other number has a leading zero; `NatToDecimalValue` fixes its value |
| `Text.ParseIntToString` | notification-support/src/test/java/com/expediagroup/streamplatform/streamregistry/core/events/CustomConsumerMethodsLoadingTest.java:133 | parsing the decimal text of any integer gives that integer back |
| `Text.IntToStringInjective` | notification-support/src/test/java/com/expediagroup/streamplatform/streamregistry/core/events/CustomConsumerMethodsLoadingTest.java:133 | distinct stream versions get distinct version-level ids |
| `CustomConsumerMethods.CustomKeyDiffersOnlyAtVersionLevel` | notification-support/src/test/java/com/expediagroup/streamplatform/streamregistry/core/events/CustomConsumerMethodsLoadingTest.java:132-136 | the custom key matches the hierarchy key on every level except the version level, which has the same id but type STREAM instead of STREAM_VERSION, so the two keys differ |
| `CustomConsumerMethods.MyCustomEvent` | notification-support/src/test/java/com/expediagroup/streamplatform/streamregistry/core/events/CustomConsumerMethodsLoadingTest.java:149-169 | only the consumer payload is filled; its key fields read back as the consumer's key; description and type come from the specification; tags are always empty; configuration and status are their serialised text |
| `CustomConsumerMethods.ResolveConsumerHandler` | notification-support/src/test/java/com/expediagroup/streamplatform/streamregistry/core/events/CustomConsumerMethodsLoadingTest.java:76-80 | with the custom parser enabled, the handler's key and value functions are the configured methods; otherwise they are the built-in ones |
| `CustomConsumerMethods.CustomMethodsDriveHandler` | notification-support/src/test/java/com/expediagroup/streamplatform/streamregistry/core/events/CustomConsumerMethodsLoadingTest.java:96-105 | with `myCustomKey`/`myCustomEvent` configured, the handler's key and record for any consumer are those methods' results, and the consumer payload is present |

## Left out

- Caller aliasing. `create` and `update` call `setSpecification` on the caller's own object. The model saves, emits and returns the binding with its new specification, but it does not model the change to the caller's reference.
- Asynchronous delivery. The emitter test waits with timeouts, so the emitter may deliver asynchronously. The model emits synchronously and in call order.
- `DefaultNotificationEventEmitter` and `getSourceEventPrefix` are not part of this model. The emitter's behaviour comes from its test. The prefix is a constant fixed when the emitter is built.
- `DomainService` is not part of this model. Module `EmitterScenarios` replays the emitter test cases against `ConsumerBindingService`, which has the same create, update, save and upsert structure.
- The repository is an abstract keyed store. The model does not include JPA, the converters (`DataToModel`) or `ProducerBindingRepository`.
- Null save answer. When `save` answers null (a test-only configuration), the model still writes the row. The answer itself is a flag on the repository.
- Listing order. The order of `findAll` is the repository's own and is given as a parameter (`order`). The matching used by query-by-example is Spring Data's default: null fields are ignored and the other fields must match exactly.
- The validator and the handler service are function values. Failures other than a validator rejection are not modelled, such as the handler throwing.
- Java nulls. Null key fields, a null status or a null specification would make the Java code throw a NullPointerException. The model does not represent them, except for the null infrastructure name in `find`'s example.
- `ObjectNodeMapper.serialise` is a function parameter (`serialise`), so its JSON text format is not modelled.
- Reflection. Loading the custom parser class and method by name is replaced by a statically chosen function value. A resolution failure at startup is not modelled.
- The `AtomicReference` hooks that record custom results in the test are left out. The equality they check is stated directly by `CustomMethodsDriveHandler`.
- Other record layouts. The records of entity kinds other than consumer are opaque (`OtherRecord`). Their layouts are not part of this model.
- Out of scope: Kafka publishing, the entity-type header, topic provisioning, Avro and schema-registry serialisation, the GraphQL query layer, and the embedded-Kafka integration test. These are I/O and concurrency.
- `Text.LowerCase` changes only the ASCII letters A-Z. It does not model locale-dependent Unicode case mapping, which "CREATE" and "UPDATE" never need.
- `Text.IntToString` works on unbounded integers. It agrees with `Integer.toString` on every 32-bit value.
