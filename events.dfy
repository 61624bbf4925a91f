/** Notification events and the emitter a service calls after each save.

    The emitter builds `NotificationEvent(source, eventType, entity)` with
    `source == sourceEventPrefix + eventType.toString().toLowerCase()`, hands it to the
    application event multicaster, and routes an exception from the multicaster to its
    `onFailedEmitting` hook instead of letting it reach the caller. A null entity (the
    repository answered with nothing) is not announced at all. */
module Events {

  import opened Wrappers
  import Text

  datatype EventType = Create | Update

  /** `EventType.toString()`: the enum constant's name. */
  function EventTypeName(t: EventType): string {
    match t
    case Create => "CREATE"
    case Update => "UPDATE"
  }

  /** The source tag of an event: the emitter's prefix followed by the lower-cased event type. */
  function SourceTag(prefix: string, t: EventType): (r: string)
    ensures |r| == |prefix| + |EventTypeName(t)|
    ensures r == prefix + (if t == Create then "create" else "update")
  {
    var suffix := Text.LowerCase(EventTypeName(t));
    assert suffix == (if t == Create then "create" else "update");
    prefix + suffix
  }

  /** Two event types never share a source tag under the same prefix. */
  lemma SourceTagIdentifiesEventType(prefix: string, s: EventType, t: EventType)
    requires SourceTag(prefix, s) == SourceTag(prefix, t)
    ensures s == t
  {
    var a, b := SourceTag(prefix, s), SourceTag(prefix, t);
    assert a[|prefix|..] == b[|prefix|..];
  }

  /** Events are values: two events are equal when source, type and entity are. */
  datatype NotificationEvent<E> = NotificationEvent(source: string, eventType: EventType, entity: E)

  /** What an emitter has done so far: every event handed to the multicaster (including
      those it threw on) and every event passed to `onFailedEmitting`. */
  datatype Notifications<E> = Notifications(
    multicast: seq<NotificationEvent<E>>,
    failed: seq<NotificationEvent<E>>)

  /** The effect of `emitEventOnProcessedEntity(t, entity)` on the record of notifications,
      when the multicaster throws exactly if `throwing`. */
  function Emit<E>(n: Notifications<E>, prefix: string, t: EventType, entity: Option<E>, throwing: bool)
    : Notifications<E>
  {
    match entity
    case None => n
    case Some(e) =>
      var event := NotificationEvent(SourceTag(prefix, t), t, e);
      Notifications(n.multicast + [event], if throwing then n.failed + [event] else n.failed)
  }

  /** A null entity publishes nothing and reports no failure. */
  lemma EmitSkipsNull<E>(n: Notifications<E>, prefix: string, t: EventType, throwing: bool)
    ensures Emit(n, prefix, t, None, throwing) == n
  {
  }

  /** A present entity is multicast exactly once, as the event {prefix + lower-cased type,
      type, entity}; when the multicaster does not throw, no failure is reported. */
  lemma EmitMulticastsOnce<E>(n: Notifications<E>, prefix: string, t: EventType, e: E, throwing: bool)
    ensures var r := Emit(n, prefix, t, Some(e), throwing);
      && |r.multicast| == |n.multicast| + 1
      && r.multicast[..|n.multicast|] == n.multicast
      && r.multicast[|n.multicast|] == NotificationEvent(SourceTag(prefix, t), t, e)
      && (!throwing ==> r.failed == n.failed)
  {
  }

  /** When the multicaster throws, the very event it threw on goes to `onFailedEmitting`
      exactly once. */
  lemma EmitRoutesFailureOnce<E>(n: Notifications<E>, prefix: string, t: EventType, e: E)
    ensures var r := Emit(n, prefix, t, Some(e), true);
      && r.failed == n.failed + [NotificationEvent(SourceTag(prefix, t), t, e)]
      && r.multicast[|n.multicast|] == r.failed[|n.failed|]
  {
  }

  /** The application event multicaster, seen from the emitter: it records every event it
      is asked to multicast, and throws on each of them when `throwing` (as the mock is
      configured with `doThrow`). */
  class ApplicationEventMulticaster<E> {
    var received: seq<NotificationEvent<E>>
    const throwing: bool

    constructor(throwing: bool)
      ensures received == [] && this.throwing == throwing
    {
      received := [];
      this.throwing := throwing;
    }

    /** `multicastEvent(event)`; `threw` says whether it raised an exception. */
    method MulticastEvent(event: NotificationEvent<E>) returns (threw: bool)
      modifies this
      ensures received == old(received) + [event]
      ensures threw == throwing
    {
      received := received + [event];
      threw := throwing;
    }
  }

  /** `DefaultNotificationEventEmitter` for one entity class. */
  class NotificationEventEmitter<E> {
    const sourceEventPrefix: string
    const multicaster: ApplicationEventMulticaster<E>
    var failedEmits: seq<NotificationEvent<E>>

    constructor(sourceEventPrefix: string, multicaster: ApplicationEventMulticaster<E>)
      ensures this.sourceEventPrefix == sourceEventPrefix && this.multicaster == multicaster
      ensures failedEmits == []
    {
      this.sourceEventPrefix := sourceEventPrefix;
      this.multicaster := multicaster;
      failedEmits := [];
    }

    function Notified(): Notifications<E>
      reads this, multicaster
    {
      Notifications(multicaster.received, failedEmits)
    }

    method EmitEventOnProcessedEntity(eventType: EventType, entity: Option<E>)
      modifies this, multicaster
      ensures Notified() == Emit(old(Notified()), sourceEventPrefix, eventType, entity, multicaster.throwing)
    {
      if entity.Some? {
        var event := NotificationEvent(SourceTag(sourceEventPrefix, eventType), eventType, entity.value);
        var threw := multicaster.MulticastEvent(event);
        if threw {
          OnFailedEmitting(event);
        }
      }
    }

    /** The failure hook: records the event whose multicast failed. */
    method OnFailedEmitting(event: NotificationEvent<E>)
      modifies this
      ensures failedEmits == old(failedEmits) + [event]
    {
      failedEmits := failedEmits + [event];
    }
  }
}
