/** `ConsumerBindingService`: create, update and upsert of consumer bindings over a keyed
    store, each save followed by a notification, plus the read-only queries.

    Collaborators: the validator and the handler service are pure functions supplied at
    construction; the repository is an object holding the rows by key; the emitter is the
    one in module Events. */
module ConsumerBindingServices {

  import opened Wrappers
  import opened Model
  import opened Events

  datatype ValidationReason =
    | AlreadyExists                          // "Can't create because it already exists"
    | DoesNotExist(key: ConsumerBindingKey)  // "Can't update <key> because it doesn't exist"
    | Rejected                               // thrown by the validator itself

  datatype ServiceError =
    | ValidationException(reason: ValidationReason)
    | UnsupportedOperation

  /** `ConsumerBindingValidator`: `validateForCreate` / `validateForUpdate` pass when these hold. */
  datatype ConsumerBindingValidator = ConsumerBindingValidator(
    acceptsForCreate: ConsumerBinding -> bool,
    acceptsForUpdate: (ConsumerBinding, ConsumerBinding) -> bool)

  /** `HandlerService`: the specification a binding is stored with on insert / on update
      (the second argument of `handleUpdate` is the existing binding). */
  datatype HandlerService = HandlerService(
    handleInsert: ConsumerBinding -> Specification,
    handleUpdate: (ConsumerBinding, ConsumerBinding) -> Specification)

  /** The binding `create` would save, or the exception it throws before saving. */
  function CreateOutcome(rows: map<ConsumerBindingKey, ConsumerBinding>, validator: ConsumerBindingValidator,
                         handler: HandlerService, b: ConsumerBinding): (r: Result<ConsumerBinding, ServiceError>)
    ensures b.key in rows ==> r == Failure(ValidationException(AlreadyExists))
    ensures r.Success? <==> b.key !in rows && validator.acceptsForCreate(b)
    ensures r.Failure? && b.key !in rows ==> r.error == ValidationException(Rejected)
    ensures r.Success? ==> r.value == ConsumerBinding(b.key, handler.handleInsert(b), b.status)
  {
    if b.key in rows then Failure(ValidationException(AlreadyExists))
    else if !validator.acceptsForCreate(b) then Failure(ValidationException(Rejected))
    else Success(b.(specification := handler.handleInsert(b)))
  }

  /** The binding `update` would save, or the exception it throws before saving. */
  function UpdateOutcome(rows: map<ConsumerBindingKey, ConsumerBinding>, validator: ConsumerBindingValidator,
                         handler: HandlerService, b: ConsumerBinding): (r: Result<ConsumerBinding, ServiceError>)
    ensures b.key !in rows ==> r == Failure(ValidationException(DoesNotExist(b.key)))
    ensures r.Success? <==> b.key in rows && validator.acceptsForUpdate(b, rows[b.key])
    ensures r.Failure? && b.key in rows ==> r.error == ValidationException(Rejected)
    ensures r.Success? ==> r.value == ConsumerBinding(b.key, handler.handleUpdate(b, rows[b.key]), b.status)
  {
    if b.key !in rows then Failure(ValidationException(DoesNotExist(b.key)))
    else
      var existing := rows[b.key];
      if !validator.acceptsForUpdate(b, existing) then Failure(ValidationException(Rejected))
      else Success(b.(specification := handler.handleUpdate(b, existing)))
  }

  /** `upsert` never fails because the key exists or because it does not: it picks the
      path whose existence check passes, so it fails only when the validator rejects. */
  lemma UpsertFailsOnlyOnRejection(rows: map<ConsumerBindingKey, ConsumerBinding>, validator: ConsumerBindingValidator,
                                   handler: HandlerService, b: ConsumerBinding)
    ensures var r := if b.key !in rows then CreateOutcome(rows, validator, handler, b)
                     else UpdateOutcome(rows, validator, handler, b);
      r.Failure? ==> r.error == ValidationException(Rejected)
  {
  }

  /** `order` lists every stored key exactly once: the order the repository returns rows in. */
  predicate Lists(order: seq<ConsumerBindingKey>, rows: map<ConsumerBindingKey, ConsumerBinding>) {
    && (forall i :: 0 <= i < |order| ==> order[i] in rows)
    && (forall k :: k in rows ==> k in order)
    && Distinct(order)
  }

  /** No element occurs twice in `s`. */
  predicate Distinct<T(==)>(s: seq<T>) {
    forall i, j :: 0 <= i < j < |s| ==> s[i] != s[j]
  }

  /** The store's invariant: every row is filed under its own key, as `save` files it. */
  predicate KeyedByOwnKey(rows: map<ConsumerBindingKey, ConsumerBinding>) {
    forall k :: k in rows ==> rows[k].key == k
  }

  /** The rows named by `order`, in that order. */
  function RowsInOrder(rows: map<ConsumerBindingKey, ConsumerBinding>, order: seq<ConsumerBindingKey>)
    : (r: seq<ConsumerBinding>)
    requires forall k :: k in order ==> k in rows
    ensures |r| == |order|
    ensures forall i :: 0 <= i < |order| ==> r[i] == rows[order[i]]
  {
    if order == [] then [] else [rows[order[0]]] + RowsInOrder(rows, order[1..])
  }

  /** `stream().filter(p)`: the elements satisfying `p`, in their original order. */
  function Filter<T(!new)>(s: seq<T>, p: T -> bool): (r: seq<T>)
    ensures |r| <= |s|
    ensures forall x :: x in r <==> x in s && p(x)
    ensures forall x :: multiset(r)[x] == if p(x) then multiset(s)[x] else 0
  {
    if s == [] then []
    else
      assert s == [s[0]] + s[1..];
      if p(s[0]) then [s[0]] + Filter(s[1..], p)
      else Filter(s[1..], p)
  }

  /** Filtering keeps order: filtering a concatenation concatenates the filtered parts. */
  lemma {:induction false} FilterAppend<T(!new)>(s: seq<T>, t: seq<T>, p: T -> bool)
    ensures Filter(s + t, p) == Filter(s, p) + Filter(t, p)
  {
    if s == [] {
      assert s + t == t;
    } else {
      var st := s + t;
      assert st[0] == s[0] && st[1..] == s[1..] + t;
      FilterAppend(s[1..], t, p);
      if p(s[0]) {
        calc {
          Filter(st, p);
          [s[0]] + Filter(s[1..] + t, p);
          [s[0]] + (Filter(s[1..], p) + Filter(t, p));
          ([s[0]] + Filter(s[1..], p)) + Filter(t, p);
        }
      }
    }
  }

  /** `x` is the first element of `s` satisfying `p`. */
  ghost predicate IsFirstMatch<T>(s: seq<T>, p: T -> bool, x: T) {
    exists i :: 0 <= i < |s| && s[i] == x && p(x) && forall j :: 0 <= j < i ==> !p(s[j])
  }

  /** `findFirst()` after a filter yields the first element of the source satisfying the filter. */
  lemma {:induction false} FilterHeadIsFirstMatch<T(!new)>(s: seq<T>, p: T -> bool)
    requires Filter(s, p) != []
    ensures IsFirstMatch(s, p, Filter(s, p)[0])
  {
    assert s != [];
    var tail := s[1..];
    if p(s[0]) {
      assert Filter(s, p) == [s[0]] + Filter(tail, p);
      assert s[0] == Filter(s, p)[0];
      assert IsFirstMatch(s, p, s[0]) by { assert 0 < |s| && s[0] == s[0]; }
    } else {
      assert Filter(s, p) == Filter(tail, p);
      FilterHeadIsFirstMatch(tail, p);
      var i :| 0 <= i < |tail| && tail[i] == Filter(tail, p)[0] && p(tail[i])
               && forall j :: 0 <= j < i ==> !p(tail[j]);
      assert s[i + 1] == tail[i];
      forall j | 0 <= j < i + 1
        ensures !p(s[j])
      {
        if j > 0 { assert s[j] == tail[j - 1]; }
      }
    }
  }

  /** The query-by-example probe `find` builds: a binding key in which a `None` field
      matches anything (Spring Data's default matcher ignores null properties). */
  datatype KeyExample = KeyExample(
    streamDomain: Option<string>,
    streamName: Option<string>,
    streamVersion: Option<int>,
    infrastructureZone: Option<string>,
    infrastructureName: Option<string>,
    consumerName: Option<string>)

  predicate FieldMatches<T(==)>(probe: Option<T>, value: T) {
    probe.None? || probe.value == value
  }

  predicate MatchesExample(ex: KeyExample, b: ConsumerBinding) {
    && FieldMatches(ex.streamDomain, b.key.streamDomain)
    && FieldMatches(ex.streamName, b.key.streamName)
    && FieldMatches(ex.streamVersion, b.key.streamVersion)
    && FieldMatches(ex.infrastructureZone, b.key.infrastructureZone)
    && FieldMatches(ex.infrastructureName, b.key.infrastructureName)
    && FieldMatches(ex.consumerName, b.key.consumerName)
  }

  /** The example `find(key)` searches with: every field taken from the consumer key,
      except the infrastructure name, which is null. */
  function ExampleFor(key: ConsumerKey): (ex: KeyExample)
    ensures ex.infrastructureName == None
    ensures ex.streamDomain == Some(key.streamDomain) && ex.streamName == Some(key.streamName)
    ensures ex.streamVersion == Some(key.streamVersion) && ex.infrastructureZone == Some(key.zone)
    ensures ex.consumerName == Some(key.name)
    ensures forall b :: MatchesExample(ex, b) <==>
      && b.key.streamDomain == key.streamDomain && b.key.streamName == key.streamName
      && b.key.streamVersion == key.streamVersion && b.key.infrastructureZone == key.zone
      && b.key.consumerName == key.name
  {
    KeyExample(Some(key.streamDomain), Some(key.streamName), Some(key.streamVersion), Some(key.zone),
               None, Some(key.name))
  }

  /** The filter the repository applies for `findAll(example)`. */
  function MatchesFor(key: ConsumerKey): ConsumerBinding -> bool {
    b => MatchesExample(ExampleFor(key), b)
  }

  /** The key-side form of a row filter: the stored keys whose row satisfies `p`. */
  function KeyFilter(rows: map<ConsumerBindingKey, ConsumerBinding>, p: ConsumerBinding -> bool)
    : ConsumerBindingKey -> bool
  {
    k => k in rows && p(rows[k])
  }

  /** Filtering the listed rows is listing the keys whose rows pass the filter: the
      result keeps the listing order. */
  lemma {:induction false} FilterRowsInOrder(rows: map<ConsumerBindingKey, ConsumerBinding>,
                                            order: seq<ConsumerBindingKey>,
                                            p: ConsumerBinding -> bool, q: ConsumerBindingKey -> bool)
    requires forall k :: k in order ==> k in rows
    requires forall k :: k in rows ==> q(k) == p(rows[k])
    ensures Filter(RowsInOrder(rows, order), p) == RowsInOrder(rows, Filter(order, q))
  {
    if order != [] {
      var listed := RowsInOrder(rows, order);
      var tail := order[1..];
      assert listed[0] == rows[order[0]] && listed[1..] == RowsInOrder(rows, tail);
      FilterRowsInOrder(rows, tail, p, q);
      if q(order[0]) {
        calc {
          Filter(listed, p);
          [rows[order[0]]] + Filter(RowsInOrder(rows, tail), p);
          [rows[order[0]]] + RowsInOrder(rows, Filter(tail, q));
          RowsInOrder(rows, [order[0]] + Filter(tail, q));
        }
      } else {
        assert Filter(listed, p) == Filter(RowsInOrder(rows, tail), p);
      }
    }
  }

  /** A sequence without repeats holds each of its elements exactly once. */
  lemma {:induction false} DistinctOccursOnce<T>(s: seq<T>)
    requires Distinct(s)
    ensures forall x :: multiset(s)[x] == if x in s then 1 else 0
  {
    if s != [] {
      assert s == [s[0]] + s[1..];
      assert Distinct(s[1..]) by {
        forall i, j | 0 <= i < j < |s[1..]| ensures s[1..][i] != s[1..][j] {
          assert s[1..][i] == s[i + 1] && s[1..][j] == s[j + 1];
        }
      }
      DistinctOccursOnce(s[1..]);
      assert s[0] !in s[1..] by {
        forall i | 0 <= i < |s[1..]| ensures s[1..][i] != s[0] { assert s[1..][i] == s[i + 1]; }
      }
    }
  }

  /** `ConsumerBindingRepository`: rows by key. `answersNull` makes `save` answer null
      (the test's `thenReturn(null)`); the row is written either way. */
  class ConsumerBindingRepository {
    var rows: map<ConsumerBindingKey, ConsumerBinding>
    const answersNull: bool

    /** Every row is filed under its own key. */
    predicate Valid()
      reads this
    {
      KeyedByOwnKey(rows)
    }

    constructor(rows: map<ConsumerBindingKey, ConsumerBinding>, answersNull: bool)
      requires KeyedByOwnKey(rows)
      ensures this.rows == rows && this.answersNull == answersNull
      ensures Valid()
    {
      this.rows := rows;
      this.answersNull := answersNull;
    }

    function FindById(key: ConsumerBindingKey): (r: Option<ConsumerBinding>)
      reads this
      ensures r.Some? <==> key in rows
      ensures r.Some? ==> r.value == rows[key]
    {
      if key in rows then Some(rows[key]) else None
    }

    /** `findAll()`, the rows listed in `order`. */
    function FindAll(order: seq<ConsumerBindingKey>): (r: seq<ConsumerBinding>)
      reads this
      requires Lists(order, rows)
      ensures |r| == |order| == |rows|
      ensures forall i :: 0 <= i < |order| ==> r[i] == rows[order[i]]
      ensures forall b :: b in r <==> b in rows.Values
      ensures Valid() ==> forall b :: multiset(r)[b] == if b in rows.Values then 1 else 0
    {
      var r := RowsInOrder(rows, order);
      assert |order| == |rows| by { ListsCardinality(order, rows); }
      forall b | b in rows.Values
        ensures b in r
      {
        var k :| k in rows && rows[k] == b;
        var i :| 0 <= i < |order| && order[i] == k;
        assert r[i] == b;
      }
      if Valid() then
        assert Distinct(r) by {
          forall i, j | 0 <= i < j < |r| ensures r[i] != r[j] {
            assert r[i].key == order[i] && r[j].key == order[j];
          }
        }
        DistinctOccursOnce(r);
        r
      else r
    }

    method Save(b: ConsumerBinding) returns (r: Option<ConsumerBinding>)
      requires Valid()
      modifies this
      ensures Valid()
      ensures rows == old(rows)[b.key := b]
      ensures r == if answersNull then None else Some(b)
    {
      rows := rows[b.key := b];
      r := if answersNull then None else Some(b);
    }
  }

  /** A listing names as many keys as the store holds. */
  lemma {:induction false} ListsCardinality(order: seq<ConsumerBindingKey>, rows: map<ConsumerBindingKey, ConsumerBinding>)
    requires Lists(order, rows)
    ensures |order| == |rows|
  {
    var keys := set i | 0 <= i < |order| :: order[i];
    assert keys == rows.Keys;
    DistinctCardinality(order);
  }

  lemma {:induction false} DistinctCardinality<T>(s: seq<T>)
    requires Distinct(s)
    ensures |set i | 0 <= i < |s| :: s[i]| == |s|
  {
    if s != [] {
      var tail := s[1..];
      DistinctCardinality(tail);
      var all := set i | 0 <= i < |s| :: s[i];
      var rest := set i | 0 <= i < |tail| :: tail[i];
      assert all == {s[0]} + rest by {
        forall x | x in all ensures x in {s[0]} + rest {
          var i :| 0 <= i < |s| && s[i] == x;
          if i > 0 { assert tail[i - 1] == x; }
        }
      }
      assert s[0] !in rest by {
        forall i | 0 <= i < |tail| ensures tail[i] != s[0] { assert tail[i] == s[i + 1]; }
      }
    }
  }

  class ConsumerBindingService {
    const handlerService: HandlerService
    const validator: ConsumerBindingValidator
    const repository: ConsumerBindingRepository
    const emitter: NotificationEventEmitter<ConsumerBinding>

    constructor(handlerService: HandlerService, validator: ConsumerBindingValidator,
                repository: ConsumerBindingRepository, emitter: NotificationEventEmitter<ConsumerBinding>)
      ensures this.handlerService == handlerService && this.validator == validator
      ensures this.repository == repository && this.emitter == emitter
    {
      this.handlerService := handlerService;
      this.validator := validator;
      this.repository := repository;
      this.emitter := emitter;
    }

    /** Neither the store nor the notifications changed. */
    twostate predicate NothingChanged()
      reads repository, emitter, emitter.multicaster
    {
      && repository.rows == old(repository.rows)
      && emitter.Notified() == old(emitter.Notified())
    }

    /** `save(b, t)`: the row is written, the repository's answer (possibly null) is handed
        to the emitter, and that same answer is returned; whether the multicaster threw
        does not affect the answer. */
    twostate predicate SavedAndNotified(b: ConsumerBinding, t: EventType, new r: Option<ConsumerBinding>)
      reads repository, emitter, emitter.multicaster
    {
      && repository.rows == old(repository.rows)[b.key := b]
      && r == (if repository.answersNull then None else Some(b))
      && emitter.Notified() == Emit(old(emitter.Notified()), emitter.sourceEventPrefix, t, r, emitter.multicaster.throwing)
    }

    twostate predicate CreatedAsSpecified(b: ConsumerBinding, new r: Result<Option<ConsumerBinding>, ServiceError>)
      reads repository, emitter, emitter.multicaster
    {
      match CreateOutcome(old(repository.rows), validator, handlerService, b)
      case Failure(e) => r == Failure(e) && NothingChanged()
      case Success(p) => r.Success? && SavedAndNotified(p, EventType.Create, r.value)
    }

    twostate predicate UpdatedAsSpecified(b: ConsumerBinding, new r: Result<Option<ConsumerBinding>, ServiceError>)
      reads repository, emitter, emitter.multicaster
    {
      match UpdateOutcome(old(repository.rows), validator, handlerService, b)
      case Failure(e) => r == Failure(e) && NothingChanged()
      case Success(p) => r.Success? && SavedAndNotified(p, EventType.Update, r.value)
    }

    method Create(b: ConsumerBinding) returns (r: Result<Option<ConsumerBinding>, ServiceError>)
      requires repository.Valid()
      modifies repository, emitter, emitter.multicaster
      ensures repository.Valid()
      ensures CreatedAsSpecified(b, r)
    {
      if Read(b.key).Some? {
        return Failure(ValidationException(AlreadyExists));
      }
      if !validator.acceptsForCreate(b) {
        return Failure(ValidationException(Rejected));
      }
      var prepared := b.(specification := handlerService.handleInsert(b));
      var saved := Save(prepared, EventType.Create);
      r := Success(saved);
    }

    method Update(b: ConsumerBinding) returns (r: Result<Option<ConsumerBinding>, ServiceError>)
      requires repository.Valid()
      modifies repository, emitter, emitter.multicaster
      ensures repository.Valid()
      ensures UpdatedAsSpecified(b, r)
    {
      var existing := Read(b.key);
      if existing.None? {
        return Failure(ValidationException(DoesNotExist(b.key)));
      }
      if !validator.acceptsForUpdate(b, existing.value) {
        return Failure(ValidationException(Rejected));
      }
      var prepared := b.(specification := handlerService.handleUpdate(b, existing.value));
      var saved := Save(prepared, EventType.Update);
      r := Success(saved);
    }

    method Save(b: ConsumerBinding, eventType: EventType) returns (r: Option<ConsumerBinding>)
      requires repository.Valid()
      modifies repository, emitter, emitter.multicaster
      ensures repository.Valid()
      ensures SavedAndNotified(b, eventType, r)
    {
      r := repository.Save(b);
      emitter.EmitEventOnProcessedEntity(eventType, r);
    }

    /** `upsert`: create when the key is absent, update when it is present. */
    method Upsert(b: ConsumerBinding) returns (r: Result<Option<ConsumerBinding>, ServiceError>)
      requires repository.Valid()
      modifies repository, emitter, emitter.multicaster
      ensures repository.Valid()
      ensures b.key !in old(repository.rows) ==> CreatedAsSpecified(b, r)
      ensures b.key in old(repository.rows) ==> UpdatedAsSpecified(b, r)
    {
      if Read(b.key).None? {
        r := Create(b);
      } else {
        r := Update(b);
      }
    }

    function Read(key: ConsumerBindingKey): (r: Option<ConsumerBinding>)
      reads repository
      ensures r.Some? <==> key in repository.rows
      ensures r.Some? ==> r.value == repository.rows[key] && r.value in repository.rows.Values
    {
      repository.FindById(key)
    }

    function Exists(key: ConsumerBindingKey): (r: bool)
      reads repository
      ensures r <==> Read(key).Some?
      ensures r <==> key in repository.rows
    {
      Read(key).Some?
    }

    /** `findAll(filter)`: exactly the stored bindings satisfying the filter, each once,
        in the repository's listing order. */
    function FindAll(order: seq<ConsumerBindingKey>, filter: ConsumerBinding -> bool): (r: seq<ConsumerBinding>)
      reads repository
      requires Lists(order, repository.rows)
      requires repository.Valid()
      ensures |r| <= |repository.rows|
      ensures forall b :: b in r <==> b in repository.rows.Values && filter(b)
      ensures forall b :: multiset(r)[b] == if b in repository.rows.Values && filter(b) then 1 else 0
      ensures r == RowsInOrder(repository.rows, Filter(order, KeyFilter(repository.rows, filter)))
    {
      var listed := repository.FindAll(order);
      assert listed == RowsInOrder(repository.rows, order);
      FilterRowsInOrder(repository.rows, order, filter, KeyFilter(repository.rows, filter));
      Filter(listed, filter)
    }

    /** `find(key)`: the first stored binding, in repository order, whose stream, zone and
        consumer name are those of the consumer key (any infrastructure); empty when none is. */
    function Find(order: seq<ConsumerBindingKey>, key: ConsumerKey): (r: Option<ConsumerBinding>)
      reads repository
      requires Lists(order, repository.rows)
      ensures r.None? <==> forall b :: b in repository.rows.Values ==> !MatchesFor(key)(b)
      ensures r.Some? ==> r.value in repository.rows.Values && IsFirstMatch(repository.FindAll(order), MatchesFor(key), r.value)
    {
      var matches := Filter(repository.FindAll(order), MatchesFor(key));
      if matches == [] then None
      else
        FilterHeadIsFirstMatch(repository.FindAll(order), MatchesFor(key));
        Some(matches[0])
    }

    /** `delete` is not supported: it always throws and changes nothing. */
    method Delete(b: ConsumerBinding) returns (r: Result<(), ServiceError>)
      ensures r == Failure(UnsupportedOperation)
    {
      r := Failure(UnsupportedOperation);
    }
  }
}
