/** The notification-emitter test cases, replayed against `ConsumerBindingService`: each
    method builds a multicaster, an emitter, a repository and a service, the way the test
    configures its mocks, performs one service call, and states what the test verifies
    about the multicaster invocations, the failure-hook invocations and the response. */
module EmitterScenarios {

  import opened Wrappers
  import opened Model
  import opened Events
  import opened ConsumerBindingServices

  /** `getDummySpecification()`: description "dummy spec", an empty configuration object. */
  function DummySpecification(): Specification {
    Specification("dummy spec", "", [], JsonObject([]))
  }

  /** Validators that let every binding through (`doNothing()`). */
  function Accepting(): ConsumerBindingValidator {
    ConsumerBindingValidator(b => true, (b, existing) => true)
  }

  /** A handler service answering the dummy specification on insert and on update. */
  function DummyHandler(): HandlerService {
    HandlerService(b => DummySpecification(), (b, existing) => DummySpecification())
  }

  /** The entity after the service has set its specification from the handler. */
  function Handled(entity: ConsumerBinding): ConsumerBinding {
    entity.(specification := DummySpecification())
  }

  /** Create with a repository that saves: one CREATE event, no failure reported. */
  method CreateEmitsOneEvent(entity: ConsumerBinding, prefix: string)
    returns (response: Result<Option<ConsumerBinding>, ServiceError>,
             multicast: seq<NotificationEvent<ConsumerBinding>>, failed: seq<NotificationEvent<ConsumerBinding>>)
    ensures response == Success(Some(Handled(entity)))
    ensures multicast == [NotificationEvent(prefix + "create", Create, Handled(entity))]
    ensures failed == []
  {
    var multicaster := new ApplicationEventMulticaster(false);
    var emitter := new NotificationEventEmitter(prefix, multicaster);
    var repository := new ConsumerBindingRepository(map[], false);
    var service := new ConsumerBindingService(DummyHandler(), Accepting(), repository, emitter);
    response := service.Create(entity);
    multicast, failed := multicaster.received, emitter.failedEmits;
  }

  /** Update of a stored entity: one UPDATE event, no failure reported. */
  method UpdateEmitsOneEvent(entity: ConsumerBinding, prefix: string)
    returns (response: Result<Option<ConsumerBinding>, ServiceError>,
             multicast: seq<NotificationEvent<ConsumerBinding>>, failed: seq<NotificationEvent<ConsumerBinding>>)
    ensures response == Success(Some(Handled(entity)))
    ensures multicast == [NotificationEvent(prefix + "update", Update, Handled(entity))]
    ensures failed == []
  {
    var multicaster := new ApplicationEventMulticaster(false);
    var emitter := new NotificationEventEmitter(prefix, multicaster);
    var repository := new ConsumerBindingRepository(map[entity.key := entity], false);
    var service := new ConsumerBindingService(DummyHandler(), Accepting(), repository, emitter);
    response := service.Update(entity);
    multicast, failed := multicaster.received, emitter.failedEmits;
  }

  /** Create or update with a repository whose save answers null: nothing is multicast,
      the failure hook is never called, and the caller gets an empty Optional. */
  method NullSaveEmitsNothing(entity: ConsumerBinding, prefix: string, update: bool)
    returns (response: Result<Option<ConsumerBinding>, ServiceError>,
             multicast: seq<NotificationEvent<ConsumerBinding>>, failed: seq<NotificationEvent<ConsumerBinding>>)
    ensures response == Success(None)
    ensures multicast == [] && failed == []
  {
    var multicaster := new ApplicationEventMulticaster(false);
    var emitter := new NotificationEventEmitter(prefix, multicaster);
    var rows := if update then map[entity.key := entity] else map[];
    var repository := new ConsumerBindingRepository(rows, true);
    var service := new ConsumerBindingService(DummyHandler(), Accepting(), repository, emitter);
    if update {
      response := service.Update(entity);
    } else {
      response := service.Create(entity);
    }
    multicast, failed := multicaster.received, emitter.failedEmits;
  }

  /** Upsert of a stored entity takes the update path: one UPDATE event. */
  method UpsertOfExistingEmitsUpdate(entity: ConsumerBinding, prefix: string)
    returns (response: Result<Option<ConsumerBinding>, ServiceError>,
             multicast: seq<NotificationEvent<ConsumerBinding>>, failed: seq<NotificationEvent<ConsumerBinding>>)
    ensures response == Success(Some(Handled(entity)))
    ensures multicast == [NotificationEvent(prefix + "update", Update, Handled(entity))]
    ensures failed == []
  {
    var multicaster := new ApplicationEventMulticaster(false);
    var emitter := new NotificationEventEmitter(prefix, multicaster);
    var repository := new ConsumerBindingRepository(map[entity.key := entity], false);
    var service := new ConsumerBindingService(DummyHandler(), Accepting(), repository, emitter);
    response := service.Upsert(entity);
    multicast, failed := multicaster.received, emitter.failedEmits;
  }

  /** Create while the multicaster throws: the event is multicast once, handed to
      `onFailedEmitting` once, and the caller still receives the saved entity. */
  method CreateSurvivesMulticasterException(entity: ConsumerBinding, prefix: string)
    returns (response: Result<Option<ConsumerBinding>, ServiceError>,
             multicast: seq<NotificationEvent<ConsumerBinding>>, failed: seq<NotificationEvent<ConsumerBinding>>)
    ensures response == Success(Some(Handled(entity)))
    ensures multicast == [NotificationEvent(prefix + "create", Create, Handled(entity))]
    ensures failed == multicast
  {
    var multicaster := new ApplicationEventMulticaster(true);
    var emitter := new NotificationEventEmitter(prefix, multicaster);
    var repository := new ConsumerBindingRepository(map[], false);
    var service := new ConsumerBindingService(DummyHandler(), Accepting(), repository, emitter);
    response := service.Create(entity);
    multicast, failed := multicaster.received, emitter.failedEmits;
  }
}
