/** The facade: account, category and operation management composed from
    the factory and the three caching proxies. Lookups map an absent record
    to `null`. Operations are created by saving them through the operation
    proxy alone: the facade never runs the processing pipeline, so creating
    an operation checks no funds and changes no balance. */
module Facade {
  import opened Model
  import Factory
  import opened RepositoryProxy

  class FinanceTrackerFacade {
    const accounts: CachingProxy<AccountInfo>
    const categories: CachingProxy<CategoryInfo>
    const operations: CachingProxy<OperationInfo>

    constructor (accounts: CachingProxy<AccountInfo>, categories: CachingProxy<CategoryInfo>,
                 operations: CachingProxy<OperationInfo>)
      ensures this.accounts == accounts && this.categories == categories && this.operations == operations
    {
      this.accounts := accounts;
      this.categories := categories;
      this.operations := operations;
    }

    ghost predicate Valid()
      reads accounts`cache, accounts.db`idSequence, accounts.db`storage
      reads accounts.cache.Values`id, accounts.db.storage.Values`id
      reads categories`cache, categories.db`idSequence, categories.db`storage
      reads categories.cache.Values`id, categories.db.storage.Values`id
      reads operations`cache, operations.db`idSequence, operations.db`storage
      reads operations.cache.Values`id, operations.db.storage.Values`id
    {
      accounts.Valid() && categories.Valid() && operations.Valid()
    }

    // Bank accounts

    /** A new account with the given name and balance, without id, saved
        through the account proxy: it gets the store's next id, and the
        record returned is the one now both stored and cached. */
    method CreateBankAccount(name: string, initialBalance: real) returns (r: BankAccount)
      requires Valid()
      modifies accounts`cache, accounts.db`storage, accounts.db`idSequence, accounts.db`saves
      ensures Valid()
      ensures r.id == Some(old(accounts.db.idSequence)) && accounts.db.idSequence == old(accounts.db.idSequence) + 1
      ensures r.data == AccountInfo(name, initialBalance)
      ensures accounts.db.saves == old(accounts.db.saves) + 1
      ensures accounts.db.storage == old(accounts.db.storage)[r.id.value := r]
      ensures accounts.cache == old(accounts.cache)[r.id.value := r]
      ensures old(accounts.Coherent()) ==> accounts.Coherent()
    {
      var account := Factory.CreateBankAccount(name, initialBalance);
      r := accounts.Save(account);
    }

    /** The account under `id`, or `null` exactly when neither the cache nor
        the store holds it. */
    method GetBankAccountById(id: nat) returns (r: Entity?<AccountInfo>)
      requires Valid()
      modifies accounts`cache, accounts.db`lookups
      ensures Valid()
      ensures r == null <==> id !in old(accounts.cache) && id !in accounts.db.storage
      ensures id in old(accounts.cache) ==> r == old(accounts.cache)[id] && accounts.db.lookups == old(accounts.db.lookups)
      ensures r != null ==> r.id == Some(id) && accounts.cache == old(accounts.cache)[id := r]
      ensures r == null ==> accounts.cache == old(accounts.cache)
      ensures accounts.db.storage == old(accounts.db.storage)
      ensures old(accounts.Coherent()) ==> accounts.Coherent()
    {
      var found := accounts.FindById(id);
      r := if found.Some? then found.value else null;
    }

    /** Every cached account. */
    method GetAllBankAccounts() returns (r: seq<BankAccount>)
      requires Valid()
      ensures |r| == |accounts.cache|
      ensures forall x :: x in r <==> x in accounts.cache.Values
    {
      r := accounts.FindAll();
    }

    /** A save through the account proxy: an upsert under the account's id,
        which is assigned first when the account has none. */
    method UpdateBankAccount(a: BankAccount)
      requires Valid()
      modifies accounts`cache, accounts.db`storage, accounts.db`idSequence, accounts.db`saves, a`id
      ensures Valid()
      ensures old(a.id).None? ==> a.id == Some(old(accounts.db.idSequence)) && accounts.db.idSequence == old(accounts.db.idSequence) + 1
      ensures old(a.id).Some? ==> a.id == old(a.id) && accounts.db.idSequence == old(accounts.db.idSequence)
      ensures a.id.Some? && a.id.value in accounts.cache
      ensures var held := accounts.cache[a.id.value];
        && fresh(held) && held.id == a.id && held.data == a.data
        && accounts.cache == old(accounts.cache)[a.id.value := held]
        && accounts.db.storage == old(accounts.db.storage)[a.id.value := held]
      ensures old(accounts.Coherent()) ==> accounts.Coherent()
    {
      var _ := accounts.Save(a);
    }

    /** Removes `id` from the account store and cache. Operations that refer
        to the account are left as they are. */
    method DeleteBankAccount(id: nat)
      requires Valid()
      modifies accounts`cache, accounts.db`storage
      ensures Valid()
      ensures accounts.db.storage == old(accounts.db.storage) - {id}
      ensures accounts.cache == old(accounts.cache) - {id}
      ensures operations.cache == old(operations.cache) && operations.Rows() == old(operations.Rows())
      ensures old(accounts.Coherent()) ==> accounts.Coherent()
    {
      accounts.DeleteById(id);
    }

    // Categories

    /** A new category of the given type and name, saved through the
        category proxy under the store's next id. */
    method CreateCategory(kind: CategoryType, name: string) returns (r: Category)
      requires Valid()
      modifies categories`cache, categories.db`storage, categories.db`idSequence, categories.db`saves
      ensures Valid()
      ensures r.id == Some(old(categories.db.idSequence)) && categories.db.idSequence == old(categories.db.idSequence) + 1
      ensures r.data == CategoryInfo(name, kind)
      ensures categories.db.saves == old(categories.db.saves) + 1
      ensures categories.db.storage == old(categories.db.storage)[r.id.value := r]
      ensures categories.cache == old(categories.cache)[r.id.value := r]
      ensures old(categories.Coherent()) ==> categories.Coherent()
    {
      var category := Factory.CreateCategory(kind, name);
      r := categories.Save(category);
    }

    /** The category under `id`, or `null` exactly when neither the cache
        nor the store holds it. */
    method GetCategoryById(id: nat) returns (r: Entity?<CategoryInfo>)
      requires Valid()
      modifies categories`cache, categories.db`lookups
      ensures Valid()
      ensures r == null <==> id !in old(categories.cache) && id !in categories.db.storage
      ensures id in old(categories.cache) ==> r == old(categories.cache)[id] && categories.db.lookups == old(categories.db.lookups)
      ensures r != null ==> r.id == Some(id) && categories.cache == old(categories.cache)[id := r]
      ensures r == null ==> categories.cache == old(categories.cache)
      ensures categories.db.storage == old(categories.db.storage)
      ensures old(categories.Coherent()) ==> categories.Coherent()
    {
      var found := categories.FindById(id);
      r := if found.Some? then found.value else null;
    }

    /** Every cached category. */
    method GetAllCategories() returns (r: seq<Category>)
      requires Valid()
      ensures |r| == |categories.cache|
      ensures forall x :: x in r <==> x in categories.cache.Values
    {
      r := categories.FindAll();
    }

    /** The cached categories of type `t`, each once. */
    method GetCategoriesByType(t: CategoryType) returns (r: seq<Category>)
      requires Valid()
      ensures Distinct(r)
      ensures forall x :: x in r <==> x in categories.cache.Values && x.data.kind == t
    {
      r := FindCategoriesByType(categories, t);
    }

    /** A save through the category proxy: an upsert under the category's id. */
    method UpdateCategory(c: Category)
      requires Valid()
      modifies categories`cache, categories.db`storage, categories.db`idSequence, categories.db`saves, c`id
      ensures Valid()
      ensures old(c.id).None? ==> c.id == Some(old(categories.db.idSequence)) && categories.db.idSequence == old(categories.db.idSequence) + 1
      ensures old(c.id).Some? ==> c.id == old(c.id) && categories.db.idSequence == old(categories.db.idSequence)
      ensures c.id.Some? && c.id.value in categories.cache
      ensures var held := categories.cache[c.id.value];
        && fresh(held) && held.id == c.id && held.data == c.data
        && categories.cache == old(categories.cache)[c.id.value := held]
        && categories.db.storage == old(categories.db.storage)[c.id.value := held]
      ensures old(categories.Coherent()) ==> categories.Coherent()
    {
      var _ := categories.Save(c);
    }

    /** Removes `id` from the category store and cache. Operations that refer
        to the category are left as they are. */
    method DeleteCategory(id: nat)
      requires Valid()
      modifies categories`cache, categories.db`storage
      ensures Valid()
      ensures categories.db.storage == old(categories.db.storage) - {id}
      ensures categories.cache == old(categories.cache) - {id}
      ensures operations.cache == old(operations.cache) && operations.Rows() == old(operations.Rows())
      ensures old(categories.Coherent()) ==> categories.Coherent()
    {
      categories.DeleteById(id);
    }

    // Operations

    /** A new income operation saved through the operation proxy. No account
        is read or written and no check is made on the fields. */
    method CreateIncomeOperation(bankAccountId: Option<nat>, amount: real, date: Date,
                                 description: string, categoryId: Option<nat>) returns (r: Operation)
      requires Valid()
      modifies operations`cache, operations.db`storage, operations.db`idSequence, operations.db`saves
      ensures Valid()
      ensures r.id == Some(old(operations.db.idSequence)) && operations.db.idSequence == old(operations.db.idSequence) + 1
      ensures r.data == OperationInfo(INCOME, bankAccountId, amount, date, description, categoryId)
      ensures operations.db.storage == old(operations.db.storage)[r.id.value := r]
      ensures operations.cache == old(operations.cache)[r.id.value := r]
      ensures unchanged(accounts, accounts.db) && unchanged(accounts.cache.Values) && unchanged(accounts.db.storage.Values)
      ensures old(operations.Coherent()) ==> operations.Coherent()
    {
      var operation := Factory.CreateIncomeOperation(bankAccountId, amount, date, description, categoryId);
      r := operations.Save(operation);
    }

    /** A new expense operation saved through the operation proxy. No account
        is read or written, so there is no funds check and no balance change. */
    method CreateExpenseOperation(bankAccountId: Option<nat>, amount: real, date: Date,
                                  description: string, categoryId: Option<nat>) returns (r: Operation)
      requires Valid()
      modifies operations`cache, operations.db`storage, operations.db`idSequence, operations.db`saves
      ensures Valid()
      ensures r.id == Some(old(operations.db.idSequence)) && operations.db.idSequence == old(operations.db.idSequence) + 1
      ensures r.data == OperationInfo(EXPENSE, bankAccountId, amount, date, description, categoryId)
      ensures operations.db.storage == old(operations.db.storage)[r.id.value := r]
      ensures operations.cache == old(operations.cache)[r.id.value := r]
      ensures unchanged(accounts, accounts.db) && unchanged(accounts.cache.Values) && unchanged(accounts.db.storage.Values)
      ensures old(operations.Coherent()) ==> operations.Coherent()
    {
      var operation := Factory.CreateExpenseOperation(bankAccountId, amount, date, description, categoryId);
      r := operations.Save(operation);
    }

    /** The operation under `id`, or `null` exactly when neither the cache
        nor the store holds it. */
    method GetOperationById(id: nat) returns (r: Entity?<OperationInfo>)
      requires Valid()
      modifies operations`cache, operations.db`lookups
      ensures Valid()
      ensures r == null <==> id !in old(operations.cache) && id !in operations.db.storage
      ensures id in old(operations.cache) ==> r == old(operations.cache)[id] && operations.db.lookups == old(operations.db.lookups)
      ensures r != null ==> r.id == Some(id) && operations.cache == old(operations.cache)[id := r]
      ensures r == null ==> operations.cache == old(operations.cache)
      ensures operations.db.storage == old(operations.db.storage)
      ensures old(operations.Coherent()) ==> operations.Coherent()
    {
      var found := operations.FindById(id);
      r := if found.Some? then found.value else null;
    }

    /** Every cached operation. */
    method GetAllOperations() returns (r: seq<Operation>)
      requires Valid()
      ensures |r| == |operations.cache|
      ensures forall x :: x in r <==> x in operations.cache.Values
    {
      r := operations.FindAll();
    }

    /** The cached operations on account `bankAccountId`, each once. */
    method GetOperationsByBankAccountId(bankAccountId: Option<nat>) returns (r: seq<Operation>)
      requires Valid() && AccountRefsSet(operations.cache)
      ensures Distinct(r)
      ensures forall x :: x in r <==> x in operations.cache.Values && x.data.bankAccountId == bankAccountId
    {
      r := FindOperationsByAccount(operations, bankAccountId);
    }

    /** The cached operations of type `t`, each once. */
    method GetOperationsByType(t: OperationType) returns (r: seq<Operation>)
      requires Valid()
      ensures Distinct(r)
      ensures forall x :: x in r <==> x in operations.cache.Values && x.data.kind == t
    {
      r := FindOperationsByType(operations, t);
    }

    /** The cached operations in category `categoryId`, each once. */
    method GetOperationsByCategoryId(categoryId: Option<nat>) returns (r: seq<Operation>)
      requires Valid() && CategoryRefsSet(operations.cache)
      ensures Distinct(r)
      ensures forall x :: x in r <==> x in operations.cache.Values && x.data.categoryId == categoryId
    {
      r := FindOperationsByCategory(operations, categoryId);
    }

    /** The cached operations dated from `start` to `end`, both included. */
    method GetOperationsByDateRange(start: Date, end: Date) returns (r: seq<Operation>)
      requires Valid()
      ensures Distinct(r)
      ensures forall x :: x in r <==> x in operations.cache.Values && start <= x.data.date <= end
    {
      r := FindOperationsInRange(operations, start, end);
    }

    /** Removes `id` from the operation store and cache. No balance is
        touched, so whatever the operation did to its account stays. */
    method DeleteOperation(id: nat)
      requires Valid()
      modifies operations`cache, operations.db`storage
      ensures Valid()
      ensures operations.db.storage == old(operations.db.storage) - {id}
      ensures operations.cache == old(operations.cache) - {id}
      ensures accounts.Rows() == old(accounts.Rows()) && accounts.db.Rows() == old(accounts.db.Rows())
      ensures old(operations.Coherent()) ==> operations.Coherent()
    {
      operations.DeleteById(id);
    }

    /** Balance recalculation is not implemented: nothing changes. */
    method RecalculateAllBalances()
      requires Valid()
      ensures accounts.Rows() == old(accounts.Rows()) && accounts.db.Rows() == old(accounts.db.Rows())
    {
    }
  }
}
