/** The in-memory stand-ins for a database (`repository/db`): one class for
    the three entity kinds. A store keeps a map from id to record and an id
    counter that starts at 1. Writes store a field-by-field copy of the
    argument and reads hand out copies, with one exception the source has:
    `Save` returns the very record it stored. */
module DbRepository {
  import opened Model
  import opened Traversal

  class DbStore<D> {
    var storage: map<nat, Entity<D>>
    var idSequence: nat
    /** How many times `Save` and `FindById` have been called, so that a
        caller can state how often it consulted this store. */
    ghost var saves: nat
    ghost var lookups: nat

    ghost predicate Valid()
      reads this`idSequence, this`storage, storage.Values`id
    {
      idSequence >= 1 && KeyedById(storage)
    }

    /** The fields held under each id. */
    ghost function Rows(): map<nat, D>
      reads this`storage, storage.Values`data
    {
      DataOf(storage)
    }

    constructor ()
      ensures Valid()
      ensures storage == map[] && idSequence == 1 && saves == 0 && lookups == 0
    {
      storage := map[];
      idSequence := 1;
      saves := 0;
      lookups := 0;
    }

    /** A record without id gets the counter's value, and the counter moves on
        by one; a record with an id keeps it and the counter stays. In both
        cases a new copy of the record is stored under that id, replacing
        any record there, and that copy is returned. */
    method Save(a: Entity<D>) returns (r: Entity<D>)
      requires Valid()
      modifies this`storage, this`idSequence, this`saves, a`id
      ensures Valid()
      ensures saves == old(saves) + 1
      ensures old(a.id).None? ==> a.id == Some(old(idSequence)) && idSequence == old(idSequence) + 1
      ensures old(a.id).Some? ==> a.id == old(a.id) && idSequence == old(idSequence)
      ensures fresh(r) && r.id == a.id && r.data == a.data
      ensures storage == old(storage)[a.id.value := r]
      ensures Rows() == old(Rows())[a.id.value := a.data]
    {
      saves := saves + 1;
      if a.id.None? {
        a.id := Some(idSequence);
        idSequence := idSequence + 1;
      }
      r := new Entity(a.id, a.data);
      storage := storage[a.id.value := r];
    }

    /** A new copy of the record held under `id`, or `None`. */
    method FindById(id: nat) returns (r: Option<Entity<D>>)
      requires Valid()
      modifies this`lookups
      ensures lookups == old(lookups) + 1
      ensures r.Some? <==> id in storage
      ensures r.Some? ==> fresh(r.value) && r.value.id == Some(id) && r.value.data == storage[id].data
    {
      lookups := lookups + 1;
      if id in storage {
        var held := storage[id];
        var copy := new Entity(held.id, held.data);
        r := Some(copy);
      } else {
        r := None;
      }
    }

    /** A new copy of every held record: one per id. */
    method FindAll() returns (r: seq<Entity<D>>)
      requires Valid()
      ensures |r| == |storage|
      ensures Distinct(r)
      ensures forall i :: 0 <= i < |r| ==> fresh(r[i]) && r[i].id.Some? && r[i].id.value in storage
      ensures forall i :: 0 <= i < |r| ==> r[i].data == storage[r[i].id.value].data
      ensures forall k :: k in storage ==> exists i :: 0 <= i < |r| && r[i].id == Some(k)
    {
      var held := ValuesOf(storage);
      r := CopyAll(held);
      forall k | k in storage
        ensures exists i :: 0 <= i < |r| && r[i].id == Some(k)
      {
        var i :| 0 <= i < |held| && held[i] == storage[k];
        assert r[i].id == Some(k);
      }
    }

    /** New copies of the held records whose fields satisfy `p`: exactly
        those, one per matching id. */
    method FindWhere(p: D -> bool) returns (r: seq<Entity<D>>)
      requires Valid()
      ensures Distinct(r)
      ensures forall i :: 0 <= i < |r| ==> fresh(r[i]) && r[i].id.Some? && r[i].id.value in storage
      ensures forall i :: 0 <= i < |r| ==> r[i].data == storage[r[i].id.value].data && p(r[i].data)
      ensures forall k :: k in storage && p(storage[k].data) ==> exists i :: 0 <= i < |r| && r[i].id == Some(k)
      ensures forall i, j :: 0 <= i < j < |r| ==> r[i].id != r[j].id
    {
      var held := Select(storage, p);
      r := CopyAll(held);
      forall k | k in storage && p(storage[k].data)
        ensures exists i :: 0 <= i < |r| && r[i].id == Some(k)
      {
        var i :| 0 <= i < |held| && held[i] == storage[k];
        assert r[i].id == Some(k);
      }
    }

    /** Removes the record's id; a record without id, or an id not held, is a no-op. */
    method Delete(a: Entity<D>)
      requires Valid()
      modifies this`storage
      ensures Valid()
      ensures storage == if a.id.Some? then old(storage) - {a.id.value} else old(storage)
    {
      if a.id.Some? {
        storage := storage - {a.id.value};
      }
    }

    /** Removes `id`; removing an id that is not held is a no-op. The counter
        is untouched, so a removed id is never handed out again by it. */
    method DeleteById(id: nat)
      requires Valid()
      modifies this`storage
      ensures Valid()
      ensures storage == old(storage) - {id}
      ensures Rows() == old(Rows()) - {id}
    {
      storage := storage - {id};
    }
  }

  /** `findByType` of the category store. */
  method FindCategoriesByType(s: DbStore<CategoryInfo>, t: CategoryType) returns (r: seq<Category>)
    requires s.Valid()
    ensures forall i :: 0 <= i < |r| ==> fresh(r[i]) && r[i].id.Some? && r[i].id.value in s.storage
    ensures forall i :: 0 <= i < |r| ==> r[i].data == s.storage[r[i].id.value].data && r[i].data.kind == t
    ensures forall k :: k in s.storage && s.storage[k].data.kind == t ==> exists i :: 0 <= i < |r| && r[i].id == Some(k)
    ensures forall i, j :: 0 <= i < j < |r| ==> r[i].id != r[j].id
  {
    r := s.FindWhere(HasCategoryType(t));
  }

  /** `findByBankAccountId` of the operation store. */
  method FindOperationsByAccount(s: DbStore<OperationInfo>, accountId: Option<nat>) returns (r: seq<Operation>)
    requires s.Valid() && AccountRefsSet(s.storage)
    ensures forall i :: 0 <= i < |r| ==> fresh(r[i]) && r[i].id.Some? && r[i].id.value in s.storage
    ensures forall i :: 0 <= i < |r| ==> r[i].data == s.storage[r[i].id.value].data && r[i].data.bankAccountId == accountId
    ensures forall k :: k in s.storage && s.storage[k].data.bankAccountId == accountId ==> exists i :: 0 <= i < |r| && r[i].id == Some(k)
    ensures forall i, j :: 0 <= i < j < |r| ==> r[i].id != r[j].id
  {
    r := s.FindWhere(OfAccount(accountId));
  }

  /** `findByType` of the operation store. */
  method FindOperationsByType(s: DbStore<OperationInfo>, t: OperationType) returns (r: seq<Operation>)
    requires s.Valid()
    ensures forall i :: 0 <= i < |r| ==> fresh(r[i]) && r[i].id.Some? && r[i].id.value in s.storage
    ensures forall i :: 0 <= i < |r| ==> r[i].data == s.storage[r[i].id.value].data && r[i].data.kind == t
    ensures forall k :: k in s.storage && s.storage[k].data.kind == t ==> exists i :: 0 <= i < |r| && r[i].id == Some(k)
    ensures forall i, j :: 0 <= i < j < |r| ==> r[i].id != r[j].id
  {
    r := s.FindWhere(HasOperationType(t));
  }

  /** `findByCategoryId` of the operation store. */
  method FindOperationsByCategory(s: DbStore<OperationInfo>, categoryId: Option<nat>) returns (r: seq<Operation>)
    requires s.Valid() && CategoryRefsSet(s.storage)
    ensures forall i :: 0 <= i < |r| ==> fresh(r[i]) && r[i].id.Some? && r[i].id.value in s.storage
    ensures forall i :: 0 <= i < |r| ==> r[i].data == s.storage[r[i].id.value].data && r[i].data.categoryId == categoryId
    ensures forall k :: k in s.storage && s.storage[k].data.categoryId == categoryId ==> exists i :: 0 <= i < |r| && r[i].id == Some(k)
    ensures forall i, j :: 0 <= i < j < |r| ==> r[i].id != r[j].id
  {
    r := s.FindWhere(OfCategory(categoryId));
  }

  /** `findByDateRange` of the operation store: inclusive at both ends. */
  method FindOperationsInRange(s: DbStore<OperationInfo>, start: Date, end: Date) returns (r: seq<Operation>)
    requires s.Valid()
    ensures forall i :: 0 <= i < |r| ==> fresh(r[i]) && r[i].id.Some? && r[i].id.value in s.storage
    ensures forall i :: 0 <= i < |r| ==> r[i].data == s.storage[r[i].id.value].data && start <= r[i].data.date <= end
    ensures forall k :: k in s.storage && start <= s.storage[k].data.date <= end ==> exists i :: 0 <= i < |r| && r[i].id == Some(k)
    ensures forall i, j :: 0 <= i < j < |r| ==> r[i].id != r[j].id
  {
    r := s.FindWhere(InDateRange(start, end));
  }
}
