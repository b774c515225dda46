/** The plain in-memory stores (the `repository` package): the same map
    and id counter as the database stand-ins, but without copies. `Save`
    stores and returns the argument object itself and every read hands out
    the held objects, so a caller that changes a record it was given changes
    the store. The operation pipeline works on these stores. */
module PlainRepository {
  import opened Model
  import opened Traversal

  class PlainStore<D> {
    var storage: map<nat, Entity<D>>
    var idSequence: nat

    ghost predicate Valid()
      reads this`idSequence, this`storage, storage.Values`id
    {
      idSequence >= 1 && KeyedById(storage)
    }

    /** The fields held under each id. */
    ghost function Rows(): map<nat, D>
      reads this`storage, storage.Values`data
    {
      DataOf(storage)
    }

    constructor ()
      ensures Valid()
      ensures storage == map[] && idSequence == 1
    {
      storage := map[];
      idSequence := 1;
    }

    /** A record without id gets the counter's value, and the counter moves on
        by one; a record with an id keeps it and the counter stays. The
        argument itself is then held under that id, replacing any record
        there, and returned. */
    method Save(a: Entity<D>) returns (r: Entity<D>)
      requires Valid()
      modifies this`storage, this`idSequence, a`id
      ensures Valid()
      ensures old(a.id).None? ==> a.id == Some(old(idSequence)) && idSequence == old(idSequence) + 1
      ensures old(a.id).Some? ==> a.id == old(a.id) && idSequence == old(idSequence)
      ensures r == a
      ensures storage == old(storage)[a.id.value := a]
      ensures Rows() == old(Rows())[a.id.value := a.data]
    {
      if a.id.None? {
        a.id := Some(idSequence);
        idSequence := idSequence + 1;
      }
      storage := storage[a.id.value := a];
      r := a;
    }

    /** The record held under `id` itself, or `None`. */
    method FindById(id: nat) returns (r: Option<Entity<D>>)
      requires Valid()
      ensures r.Some? <==> id in storage
      ensures r.Some? ==> r.value == storage[id] && r.value.id == Some(id)
    {
      if id in storage {
        r := Some(storage[id]);
      } else {
        r := None;
      }
    }

    /** Every held record, each once. */
    method FindAll() returns (r: seq<Entity<D>>)
      requires Valid()
      ensures |r| == |storage|
      ensures Distinct(r)
      ensures forall x :: x in r <==> x in storage.Values
    {
      r := ValuesOf(storage);
    }

    /** The held records whose fields satisfy `p`, each once. */
    method FindWhere(p: D -> bool) returns (r: seq<Entity<D>>)
      requires Valid()
      ensures Distinct(r)
      ensures forall x :: x in r <==> x in storage.Values && p(x.data)
    {
      r := Select(storage, p);
    }

    /** Removes the record's id; a record without id, or an id not held, is a no-op. */
    method Delete(a: Entity<D>)
      requires Valid()
      modifies this`storage
      ensures Valid()
      ensures storage == if a.id.Some? then old(storage) - {a.id.value} else old(storage)
    {
      if a.id.Some? {
        storage := storage - {a.id.value};
      }
    }

    /** Removes `id`; removing an id that is not held is a no-op. */
    method DeleteById(id: nat)
      requires Valid()
      modifies this`storage
      ensures Valid()
      ensures storage == old(storage) - {id}
      ensures Rows() == old(Rows()) - {id}
    {
      storage := storage - {id};
    }
  }

  /** `findByType` of the category store. */
  method FindCategoriesByType(s: PlainStore<CategoryInfo>, t: CategoryType) returns (r: seq<Category>)
    requires s.Valid()
    ensures Distinct(r)
    ensures forall x :: x in r <==> x in s.storage.Values && x.data.kind == t
  {
    r := s.FindWhere(HasCategoryType(t));
  }

  /** `findByBankAccountId` of the operation store. */
  method FindOperationsByAccount(s: PlainStore<OperationInfo>, accountId: Option<nat>) returns (r: seq<Operation>)
    requires s.Valid() && AccountRefsSet(s.storage)
    ensures Distinct(r)
    ensures forall x :: x in r <==> x in s.storage.Values && x.data.bankAccountId == accountId
  {
    r := s.FindWhere(OfAccount(accountId));
  }

  /** `findByType` of the operation store. */
  method FindOperationsByType(s: PlainStore<OperationInfo>, t: OperationType) returns (r: seq<Operation>)
    requires s.Valid()
    ensures Distinct(r)
    ensures forall x :: x in r <==> x in s.storage.Values && x.data.kind == t
  {
    r := s.FindWhere(HasOperationType(t));
  }

  /** `findByCategoryId` of the operation store. */
  method FindOperationsByCategory(s: PlainStore<OperationInfo>, categoryId: Option<nat>) returns (r: seq<Operation>)
    requires s.Valid() && CategoryRefsSet(s.storage)
    ensures Distinct(r)
    ensures forall x :: x in r <==> x in s.storage.Values && x.data.categoryId == categoryId
  {
    r := s.FindWhere(OfCategory(categoryId));
  }

  /** `findByDateRange` of the operation store: inclusive at both ends. */
  method FindOperationsInRange(s: PlainStore<OperationInfo>, start: Date, end: Date) returns (r: seq<Operation>)
    requires s.Valid()
    ensures Distinct(r)
    ensures forall x :: x in r <==> x in s.storage.Values && start <= x.data.date <= end
  {
    r := s.FindWhere(InDateRange(start, end));
  }
}
