/** The versioned order store: a collection of order documents keyed by id,
    with a unique index on the order code, and an update that is a
    compare-and-swap on (id, version). */
module Repository {
  import opened Results
  import opened Values
  import opened Text
  import opened Orders
  import opened DocumentMapping

  type Collection = map<OrderId, OrderDocument>

  /** Some document other than the one with id `id` carries `code`. */
  predicate CodeHeldByOther(coll: Collection, code: string, id: OrderId)
  {
    exists k :: k in coll && k != id && coll[k].orderCode == code
  }

  /** What the unique index on the order code enforces. */
  predicate UniqueCodes(coll: Collection)
  {
    forall a, b :: a in coll && b in coll && coll[a].orderCode == coll[b].orderCode ==> a == b
  }

  /** Every document sits under its own id, reads back as an order, and no two
      documents share a code. */
  ghost predicate StoreInvariant(coll: Collection)
  {
    && (forall id :: id in coll ==> coll[id].id == id && ToDomainState(coll[id]).Success?)
    && UniqueCodes(coll)
  }

  /** `InsertOneAsync`: rejected with a duplicate-key error when the id or the
      code is already present; otherwise the document is added and nothing
      else changes. */
  function StoreInsert(coll: Collection, d: OrderDocument): (r: Result<Collection>)
    ensures r.Success? <==> d.id !in coll && !CodeHeldByOther(coll, d.orderCode, d.id)
    ensures r.Failure? ==> r.error == DuplicateKey
    ensures r.Success? ==>
      && r.value.Keys == coll.Keys + {d.id}
      && r.value[d.id] == d
      && forall k :: k in coll ==> r.value[k] == coll[k]
  {
    if d.id in coll || CodeHeldByOther(coll, d.orderCode, d.id) then Failure(DuplicateKey)
    else Success(coll[d.id := d])
  }

  /** The write of `UpdateAsync`: `ReplaceOneAsync` filtered on id and
      expected version; when nothing matched, a missing id is reported as
      not found and an existing one as a conflict. A replacement that would
      give a second document the same code is refused by the unique index. */
  function StoreReplace(coll: Collection, d: OrderDocument, expectedVersion: int32): (r: Result<Collection>)
    ensures r.Success? <==>
      d.id in coll && coll[d.id].version == expectedVersion && !CodeHeldByOther(coll, d.orderCode, d.id)
    ensures d.id !in coll ==> r == Failure(NotFound("Order not found."))
    ensures d.id in coll && coll[d.id].version != expectedVersion ==>
      r == Failure(ConcurrencyConflict("Order update conflict."))
    ensures r.Success? ==>
      && r.value.Keys == coll.Keys
      && r.value[d.id] == d
      && forall k :: k in coll && k != d.id ==> r.value[k] == coll[k]
  {
    if d.id in coll && coll[d.id].version == expectedVersion then
      if CodeHeldByOther(coll, d.orderCode, d.id) then Failure(DuplicateKey)
      else Success(coll[d.id := d])
    else if d.id !in coll then Failure(NotFound("Order not found."))
    else Failure(ConcurrencyConflict("Order update conflict."))
  }

  /** `DeleteOneAsync` by id: not found when no document has the id. */
  function StoreDelete(coll: Collection, id: OrderId): (r: Result<Collection>)
    ensures r.Success? <==> id in coll
    ensures r.Failure? ==> r.error == NotFound("Order not found.")
    ensures r.Success? ==>
      && r.value.Keys == coll.Keys - {id}
      && forall k :: k in r.value ==> r.value[k] == coll[k]
  {
    if id in coll then Success(coll - {id}) else Failure(NotFound("Order not found."))
  }

  /** `DeleteOneAsync` by code: not found when no document has the code;
      otherwise the documents with that code (one, under the unique index)
      are gone and the others stay. */
  function StoreDeleteByCode(coll: Collection, code: string): (r: Result<Collection>)
    ensures r.Success? <==> exists k :: k in coll && coll[k].orderCode == code
    ensures r.Failure? ==> r.error == NotFound("Order not found.")
    ensures r.Success? ==>
      forall k :: k in coll ==> (k in r.value <==> coll[k].orderCode != code)
    ensures r.Success? ==> forall k :: k in r.value ==> k in coll && r.value[k] == coll[k]
  {
    if exists k :: k in coll && coll[k].orderCode == code then
      Success(map k | k in coll && coll[k].orderCode != code :: coll[k])
    else Failure(NotFound("Order not found."))
  }

  /** With unique codes, deleting by code removes exactly one document. */
  lemma DeleteByCodeRemovesOne(coll: Collection, code: string)
    requires UniqueCodes(coll)
    requires StoreDeleteByCode(coll, code).Success?
    ensures exists k :: k in coll && coll[k].orderCode == code && StoreDeleteByCode(coll, code).value == coll - {k}
  {
    var k :| k in coll && coll[k].orderCode == code;
    var r := StoreDeleteByCode(coll, code).value;
    assert r.Keys == coll.Keys - {k};
    assert r == coll - {k};
  }

  lemma InsertKeepsInvariant(coll: Collection, d: OrderDocument)
    requires StoreInvariant(coll) && ToDomainState(d).Success?
    requires StoreInsert(coll, d).Success?
    ensures StoreInvariant(StoreInsert(coll, d).value)
  {
    var r := StoreInsert(coll, d).value;
    forall a, b | a in r && b in r && r[a].orderCode == r[b].orderCode
      ensures a == b
    {
      if a != d.id && b != d.id {
        assert r[a] == coll[a] && r[b] == coll[b];
      } else if a != b {
        assert false;
      }
    }
  }

  lemma ReplaceKeepsInvariant(coll: Collection, d: OrderDocument, expectedVersion: int32)
    requires StoreInvariant(coll) && ToDomainState(d).Success?
    requires StoreReplace(coll, d, expectedVersion).Success?
    ensures StoreInvariant(StoreReplace(coll, d, expectedVersion).value)
  {
    var r := StoreReplace(coll, d, expectedVersion).value;
    forall a, b | a in r && b in r && r[a].orderCode == r[b].orderCode
      ensures a == b
    {
      if a != d.id && b != d.id {
        assert r[a] == coll[a] && r[b] == coll[b];
      } else if a != b {
        assert false;
      }
    }
  }

  lemma DeleteKeepsInvariant(coll: Collection, id: OrderId)
    requires StoreInvariant(coll) && StoreDelete(coll, id).Success?
    ensures StoreInvariant(StoreDelete(coll, id).value)
  {
  }

  lemma DeleteByCodeKeepsInvariant(coll: Collection, code: string)
    requires StoreInvariant(coll) && StoreDeleteByCode(coll, code).Success?
    ensures StoreInvariant(StoreDeleteByCode(coll, code).value)
  {
  }

  /** The document `UpdateAsync` writes for an order: its current state with
      the version moved one up. */
  function UpdateDocument(o: Order): (d: OrderDocument)
    reads o
    requires o.version < Int32Max
    ensures d.id == o.id && d.orderCode == o.code && d.version as int == o.version as int + 1
  {
    FromDomain(o).(version := o.version + 1)
  }

  /** `order.Version + 1` as C# computes it outside a `checked` block: the
      largest 32-bit value wraps to the smallest. */
  function UncheckedIncrement(v: int32): (r: int32)
    ensures v < Int32Max ==> r as int == v as int + 1
    ensures v == Int32Max ==> r < 0
  {
    if v == Int32Max then -0x8000_0000 else v + 1
  }

  /** What `UpdateAsync` writes for an order at the largest version carries
      a negative version, and reading it back fails with the version check
      of `Rehydrate`. */
  lemma WrappedVersionIsUnreadable(o: Order)
    requires o.Valid() && o.version == Int32Max
    ensures var d := FromDomain(o).(version := UncheckedIncrement(o.version));
      && d.version < 0
      && ToDomainState(d) == Failure(Validation("Version must be non-negative."))
  {
    ItemsRoundTrip(o.items);
    var d := FromDomain(o).(version := UncheckedIncrement(o.version));
    assert ItemsFromDocuments(d.items) == Success(o.items);
    assert CheckHeader(d.orderCode, Some(CustomerSnapshot(d.customer.customerId, d.customer.customerName)),
                       Some(RestaurantSnapshot(d.restaurant.restaurantId, d.restaurant.restaurantName)),
                       d.deliveryFee) == Pass;
  }

  /** The lost update is refused: two copies of an order read at version N
      are updated one after the other; the first write succeeds and leaves
      the stored document at N + 1, the second is a conflict and changes
      nothing, so the store stays at N + 1. */
  lemma LostUpdateIsRejected(coll: Collection, first: Order, second: Order)
    requires UniqueCodes(coll)
    requires first.id == second.id && first.version == second.version && first.version < Int32Max
    requires first.id in coll && coll[first.id].version == first.version
    requires coll[first.id].orderCode == first.code
    ensures var afterFirst := StoreReplace(coll, UpdateDocument(first), first.version);
      && afterFirst.Success?
      && afterFirst.value[first.id].version as int == first.version as int + 1
      && StoreReplace(afterFirst.value, UpdateDocument(second), second.version)
           == Failure(ConcurrencyConflict("Order update conflict."))
  {
  }

  /** One criterion of a search. */
  datatype Filter =
    | CodeIs(code: string)
    | StatusIs(status: OrderStatus)
    | OrderedFrom(from: Instant)
    | OrderedUntil(until: Instant)

  predicate Matches(f: Filter, d: OrderDocument)
  {
    match f
    case CodeIs(code) => d.orderCode == code
    case StatusIs(status) => d.status == status
    case OrderedFrom(from) => d.orderedAt >= from
    case OrderedUntil(until) => d.orderedAt <= until
  }

  /** `Filter.And(filters)`, and `Filter.Empty` for an empty list. */
  predicate MatchesAll(filters: seq<Filter>, d: OrderDocument)
  {
    forall i :: 0 <= i < |filters| ==> Matches(filters[i], d)
  }

  lemma MatchesAllAppend(filters: seq<Filter>, f: Filter)
    ensures forall d :: MatchesAll(filters + [f], d) <==> MatchesAll(filters, d) && Matches(f, d)
  {
    forall d | MatchesAll(filters + [f], d)
      ensures MatchesAll(filters, d) && Matches(f, d)
    {
      assert (filters + [f])[|filters|] == f;
      forall i | 0 <= i < |filters| ensures Matches(filters[i], d) {
        assert (filters + [f])[i] == filters[i];
      }
    }
  }

  /** The search criteria as a predicate: each criterion that is supplied
      must hold; a blank code counts as not supplied. */
  predicate SearchPredicate(code: Option<string>, status: Option<OrderStatus>,
                            from: Option<Instant>, until: Option<Instant>, d: OrderDocument)
  {
    && (code.Some? && !IsBlank(code.value) ==> d.orderCode == code.value)
    && (status.Some? ==> d.status == status.value)
    && (from.Some? ==> d.orderedAt >= from.value)
    && (until.Some? ==> d.orderedAt <= until.value)
  }

  predicate NoCriteria(code: Option<string>, status: Option<OrderStatus>,
                       from: Option<Instant>, until: Option<Instant>)
  {
    (code.None? || IsBlank(code.value)) && status.None? && from.None? && until.None?
  }

  /** The filter list of `SearchAsync`, built one criterion at a time; it
      selects exactly the documents the search criteria describe. */
  method BuildFilters(code: Option<string>, status: Option<OrderStatus>,
                      from: Option<Instant>, until: Option<Instant>) returns (filters: seq<Filter>)
    ensures forall d :: MatchesAll(filters, d) <==> SearchPredicate(code, status, from, until, d)
    ensures filters == [] <==> NoCriteria(code, status, from, until)
    ensures |filters| <= 4
  {
    filters := [];
    if code.Some? && !IsBlank(code.value) {
      MatchesAllAppend(filters, CodeIs(code.value));
      filters := filters + [CodeIs(code.value)];
    }
    if status.Some? {
      MatchesAllAppend(filters, StatusIs(status.value));
      filters := filters + [StatusIs(status.value)];
    }
    if from.Some? {
      MatchesAllAppend(filters, OrderedFrom(from.value));
      filters := filters + [OrderedFrom(from.value)];
    }
    if until.Some? {
      MatchesAllAppend(filters, OrderedUntil(until.value));
      filters := filters + [OrderedUntil(until.value)];
    }
  }

  /** The Mongo-backed repository, with the collection as a map from id to
      document. */
  class OrderRepository {
    var collection: Collection

    ghost predicate Valid()
      reads this
    {
      StoreInvariant(collection)
    }

    /** A repository bound to the existing `orders` collection, which may
        already hold documents, with the unique index on the order code in
        place. */
    constructor (initial: Collection)
      requires StoreInvariant(initial)
      ensures Valid() && collection == initial
    {
      collection := initial;
    }

    /** `AddAsync`: inserts the order's document and returns the order read
        back from it, or the duplicate-key error of the store. */
    method Add(o: Order) returns (r: Result<OrderState>)
      requires Valid() && o.Valid()
      modifies this
      ensures Valid()
      ensures StoreInsert(old(collection), FromDomain(o)).Failure? ==>
        r == Failure(DuplicateKey) && collection == old(collection)
      ensures StoreInsert(old(collection), FromDomain(o)).Success? ==>
        && collection == StoreInsert(old(collection), FromDomain(o)).value
        && r == Success(o.State())
    {
      var d := FromDomain(o);
      var inserted := StoreInsert(collection, d);
      if inserted.Failure? {
        return Failure(inserted.error);
      }
      RoundTrip(o);
      InsertKeepsInvariant(collection, d);
      collection := inserted.value;
      r := ToDomainState(d);
    }

    /** `GetByIdAsync`: the stored order with that id, if any. */
    method GetById(id: OrderId) returns (r: Option<OrderState>)
      requires Valid()
      ensures r.Some? <==> id in collection
      ensures r.Some? ==> r.value.id == id && Success(r.value) == ToDomainState(collection[id])
    {
      if id in collection {
        ToDomainKeepsIdentity(collection[id]);
        r := Some(ToDomainState(collection[id]).value);
      } else {
        r := None;
      }
    }

    /** `GetByCodeAsync`: the stored order with exactly that code, if any. */
    method GetByCode(code: string) returns (r: Option<OrderState>)
      requires Valid()
      ensures r.Some? <==> exists id :: id in collection && collection[id].orderCode == code
      ensures r.Some? ==>
        && r.value.id in collection
        && collection[r.value.id].orderCode == code
        && Success(r.value) == ToDomainState(collection[r.value.id])
    {
      if id :| id in collection && collection[id].orderCode == code {
        ToDomainKeepsIdentity(collection[id]);
        r := Some(ToDomainState(collection[id]).value);
      } else {
        r := None;
      }
    }

    /** `SearchAsync`: exactly the stored orders that satisfy every supplied
        criterion; with no criterion, every stored order. The result order of
        the store is not modelled. */
    method Search(code: Option<string>, status: Option<OrderStatus>,
                  from: Option<Instant>, until: Option<Instant>) returns (r: set<OrderState>)
      requires Valid()
      ensures forall id :: id in collection ==>
        (ToDomainState(collection[id]).value in r <==> SearchPredicate(code, status, from, until, collection[id]))
      ensures forall s :: s in r ==> s.id in collection && Success(s) == ToDomainState(collection[s.id])
      ensures NoCriteria(code, status, from, until) ==>
        forall id :: id in collection ==> ToDomainState(collection[id]).value in r
    {
      var filters := BuildFilters(code, status, from, until);
      r := set id | id in collection && MatchesAll(filters, collection[id]) :: ToDomainState(collection[id]).value;
      forall id | id in collection
        ensures ToDomainState(collection[id]).value.id == id
      {
        ToDomainKeepsIdentity(collection[id]);
      }
    }

    /** `UpdateAsync`: writes the order at version + 1 only if the stored
        document still has the order's id and version, and returns the
        order read back at the new version; otherwise not found or a
        conflict, and the store is unchanged. */
    method Update(o: Order) returns (r: Result<OrderState>)
      requires Valid() && o.Valid() && o.version < Int32Max
      modifies this
      ensures Valid()
      ensures var written := StoreReplace(old(collection), UpdateDocument(o), o.version);
        && (written.Failure? ==> r == Failure(written.error) && collection == old(collection))
        && (written.Success? ==>
              && collection == written.value
              && r == Success(o.State().(version := o.version + 1)))
    {
      var d := UpdateDocument(o);
      var written := StoreReplace(collection, d, o.version);
      if written.Failure? {
        return Failure(written.error);
      }
      RoundTripAtVersion(o, o.version + 1);
      ReplaceKeepsInvariant(collection, d, o.version);
      collection := written.value;
      r := ToDomainState(d);
    }

    /** `DeleteAsync`. */
    method Delete(id: OrderId) returns (r: Outcome)
      requires Valid()
      modifies this
      ensures Valid()
      ensures var removed := StoreDelete(old(collection), id);
        && (removed.Failure? ==> r == Fail(removed.error) && collection == old(collection))
        && (removed.Success? ==> r == Pass && collection == removed.value)
    {
      var removed := StoreDelete(collection, id);
      if removed.Failure? {
        return Fail(removed.error);
      }
      DeleteKeepsInvariant(collection, id);
      collection := removed.value;
      r := Pass;
    }

    /** `DeleteByCodeAsync`: removes the one document with that code (see
        `DeleteByCodeRemovesOne`). */
    method DeleteByCode(code: string) returns (r: Outcome)
      requires Valid()
      modifies this
      ensures Valid()
      ensures var removed := StoreDeleteByCode(old(collection), code);
        && (removed.Failure? ==> r == Fail(removed.error) && collection == old(collection))
        && (removed.Success? ==> r == Pass && collection == removed.value)
      ensures r.Pass? ==>
        exists id :: id in old(collection) && old(collection)[id].orderCode == code && collection == old(collection) - {id}
    {
      var removed := StoreDeleteByCode(collection, code);
      if removed.Failure? {
        return Fail(removed.error);
      }
      DeleteByCodeKeepsInvariant(collection, code);
      DeleteByCodeRemovesOne(collection, code);
      collection := removed.value;
      r := Pass;
    }
  }
}
