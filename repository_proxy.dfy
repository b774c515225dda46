/** The caching proxies (`repository/proxy`): a cache map in front of a
    database stand-in, one class for the three entity kinds. The cache is
    filled from the store when the proxy is built; writes go to the store
    first and then to the cache; `FindById` answers from the cache and reads
    through to the store only on a miss; listing and filtering read the cache
    alone. The proxy hands out the objects it caches, without copying. */
module RepositoryProxy {
  import opened Model
  import opened Traversal
  import opened DbRepository

  class CachingProxy<D> {
    const db: DbStore<D>
    var cache: map<nat, Entity<D>>

    ghost predicate Valid()
      reads this`cache, db`idSequence, db`storage, cache.Values`id, db.storage.Values`id
    {
      db.Valid() && KeyedById(cache)
    }

    /** The cache and the store hold the same ids, with the same fields under
        each id. This holds from construction on as long as every write goes
        through the proxy. Editing a record the proxy handed out is a write
        outside the proxy: after the initial load or a read-through, the
        cached object is a copy distinct from the one the store holds, so such
        an edit reaches the cache alone and breaks this. */
    ghost predicate Coherent()
      reads this`cache, db`storage, cache.Values`data, db.storage.Values`data
    {
      && cache.Keys == db.storage.Keys
      && forall k :: k in cache ==> cache[k].data == db.storage[k].data
    }

    /** The fields cached under each id. */
    ghost function Rows(): map<nat, D>
      reads this`cache, cache.Values`data
    {
      DataOf(cache)
    }

    /** Loads every record the store lists into the cache. The cached records
        are the store's copies, so none of them is an object the store holds. */
    constructor (db: DbStore<D>)
      requires db.Valid()
      ensures this.db == db && Valid() && Coherent()
      ensures forall k :: k in cache ==> fresh(cache[k])
    {
      this.db := db;
      cache := map[];
      new;
      InitializeCache();
    }

    /** Puts every record of the store's `FindAll` into the (empty) cache under its id. */
    method InitializeCache()
      requires db.Valid() && cache == map[]
      modifies this`cache
      ensures Valid() && Coherent()
      ensures forall k :: k in cache ==> fresh(cache[k])
    {
      var all := db.FindAll();
      var loaded: map<nat, Entity<D>> := map[];
      for i := 0 to |all|
        invariant forall k :: k in loaded ==> k in db.storage && loaded[k].id == Some(k)
        invariant forall k :: k in loaded ==> fresh(loaded[k]) && loaded[k].data == db.storage[k].data
        invariant forall j :: 0 <= j < i ==> all[j].id.value in loaded
      {
        loaded := loaded[all[i].id.value := all[i]];
      }
      forall k | k in db.storage
        ensures k in loaded
      {
        var j :| 0 <= j < |all| && all[j].id == Some(k);
      }
      cache := loaded;
    }

    /** Saves through the store, then caches what the store returned (the
        record the store now holds) under its id and returns it. */
    method Save(a: Entity<D>) returns (r: Entity<D>)
      requires Valid()
      modifies this`cache, db`storage, db`idSequence, db`saves, a`id
      ensures Valid()
      ensures db.saves == old(db.saves) + 1
      ensures old(a.id).None? ==> a.id == Some(old(db.idSequence)) && db.idSequence == old(db.idSequence) + 1
      ensures old(a.id).Some? ==> a.id == old(a.id) && db.idSequence == old(db.idSequence)
      ensures fresh(r) && r.id == a.id && r.data == a.data
      ensures db.storage == old(db.storage)[a.id.value := r]
      ensures cache == old(cache)[a.id.value := r]
      ensures db.lookups == old(db.lookups)
      ensures old(Coherent()) ==> Coherent()
    {
      r := db.Save(a);
      cache := cache[r.id.value := r];
    }

    /** A cached id is answered from the cache, without asking the store. An
        id that is not cached is looked up in the store once; a record found
        there is cached under `id` and returned. */
    method FindById(id: nat) returns (r: Option<Entity<D>>)
      requires Valid()
      modifies this`cache, db`lookups
      ensures Valid()
      ensures db.storage == old(db.storage)
      ensures id in old(cache) ==> r == Some(old(cache)[id]) && cache == old(cache) && db.lookups == old(db.lookups)
      ensures id !in old(cache) ==> db.lookups == old(db.lookups) + 1 && (r.Some? <==> id in db.storage)
      ensures id !in old(cache) && r.Some? ==>
        fresh(r.value) && r.value.id == Some(id) && r.value.data == db.storage[id].data && cache == old(cache)[id := r.value]
      ensures id !in old(cache) && r.None? ==> cache == old(cache)
      ensures old(Coherent()) ==> Coherent()
    {
      if id in cache {
        return Some(cache[id]);
      }
      r := db.FindById(id);
      if r.Some? {
        cache := cache[id := r.value];
      }
    }

    /** Every cached record, each once; the store is not consulted. */
    method FindAll() returns (r: seq<Entity<D>>)
      requires Valid()
      ensures |r| == |cache|
      ensures Distinct(r)
      ensures forall x :: x in r <==> x in cache.Values
    {
      r := ValuesOf(cache);
    }

    /** The cached records whose fields satisfy `p`, each once. */
    method FindWhere(p: D -> bool) returns (r: seq<Entity<D>>)
      requires Valid()
      ensures Distinct(r)
      ensures forall x :: x in r <==> x in cache.Values && p(x.data)
    {
      r := Select(cache, p);
    }

    /** Deletes the record's id from the store, then from the cache. The
        cache is a concurrent map, which refuses a null key. */
    method Delete(a: Entity<D>)
      requires Valid() && a.id.Some?
      modifies this`cache, db`storage
      ensures Valid()
      ensures db.storage == old(db.storage) - {a.id.value}
      ensures cache == old(cache) - {a.id.value}
      ensures old(Coherent()) ==> Coherent()
    {
      db.Delete(a);
      cache := cache - {a.id.value};
    }

    /** Deletes `id` from the store, then from the cache; an id held by
        neither is a no-op. */
    method DeleteById(id: nat)
      requires Valid()
      modifies this`cache, db`storage
      ensures Valid()
      ensures db.storage == old(db.storage) - {id}
      ensures cache == old(cache) - {id}
      ensures old(Coherent()) ==> Coherent()
    {
      db.DeleteById(id);
      cache := cache - {id};
    }
  }

  /** `findByType` of the category proxy. */
  method FindCategoriesByType(p: CachingProxy<CategoryInfo>, t: CategoryType) returns (r: seq<Category>)
    requires p.Valid()
    ensures Distinct(r)
    ensures forall x :: x in r <==> x in p.cache.Values && x.data.kind == t
  {
    r := p.FindWhere(HasCategoryType(t));
  }

  /** `findByBankAccountId` of the operation proxy. */
  method FindOperationsByAccount(p: CachingProxy<OperationInfo>, accountId: Option<nat>) returns (r: seq<Operation>)
    requires p.Valid() && AccountRefsSet(p.cache)
    ensures Distinct(r)
    ensures forall x :: x in r <==> x in p.cache.Values && x.data.bankAccountId == accountId
  {
    r := p.FindWhere(OfAccount(accountId));
  }

  /** `findByType` of the operation proxy. */
  method FindOperationsByType(p: CachingProxy<OperationInfo>, t: OperationType) returns (r: seq<Operation>)
    requires p.Valid()
    ensures Distinct(r)
    ensures forall x :: x in r <==> x in p.cache.Values && x.data.kind == t
  {
    r := p.FindWhere(HasOperationType(t));
  }

  /** `findByCategoryId` of the operation proxy. */
  method FindOperationsByCategory(p: CachingProxy<OperationInfo>, categoryId: Option<nat>) returns (r: seq<Operation>)
    requires p.Valid() && CategoryRefsSet(p.cache)
    ensures Distinct(r)
    ensures forall x :: x in r <==> x in p.cache.Values && x.data.categoryId == categoryId
  {
    r := p.FindWhere(OfCategory(categoryId));
  }

  /** `findByDateRange` of the operation proxy: inclusive at both ends. */
  method FindOperationsInRange(p: CachingProxy<OperationInfo>, start: Date, end: Date) returns (r: seq<Operation>)
    requires p.Valid()
    ensures Distinct(r)
    ensures forall x :: x in r <==> x in p.cache.Values && start <= x.data.date <= end
  {
    r := p.FindWhere(InDateRange(start, end));
  }
}
