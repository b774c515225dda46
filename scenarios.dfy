/** Concrete runs of the stores, the proxy, the pipeline and the facade,
    each stating what the run ends with. They pin down behaviour that the
    general contracts imply but that is easy to misread: which objects are
    shared and which are copies, how ids can collide, when the backing store
    is consulted, and that the facade bypasses the pipeline. */
module Scenarios {
  import opened Model
  import opened DbRepository
  import opened PlainRepository
  import opened RepositoryProxy
  import opened Service
  import opened Facade
  import Factory

  /** The database stand-in stores a copy of the saved argument, so editing
      the argument afterwards does not reach the store; it returns the copy it
      holds, so editing the returned record does; and a lookup hands out a
      fresh copy, so editing that does not. */
  method DbStoreCopies() returns (afterArgumentEdit: real, afterReturnedEdit: real, afterLookupEdit: real)
    ensures afterArgumentEdit == 100.0
    ensures afterReturnedEdit == 300.0
    ensures afterLookupEdit == 300.0
  {
    var store := new DbStore<AccountInfo>();
    var account := Factory.CreateBankAccount("Test", 100.0);
    var saved := store.Save(account);
    account.data := account.data.(balance := 200.0);
    var found := store.FindById(1);
    afterArgumentEdit := found.value.data.balance;
    saved.data := saved.data.(balance := 300.0);
    found := store.FindById(1);
    afterReturnedEdit := found.value.data.balance;
    found.value.data := found.value.data.(balance := 400.0);
    var again := store.FindById(1);
    afterLookupEdit := again.value.data.balance;
  }

  /** An explicit id is kept but does not move the counter, so the next
      record saved without id is given the same id and replaces the first. */
  method ExplicitIdCollision() returns (explicitId: Option<nat>, assignedId: Option<nat>, held: nat, survivor: string)
    ensures explicitId == Some(1) && assignedId == Some(1)
    ensures held == 1 && survivor == "Second"
  {
    var store := new DbStore<AccountInfo>();
    var first := new Entity(Some(1), AccountInfo("First", 10.0));
    var _ := store.Save(first);
    var second := Factory.CreateBankAccount("Second", 20.0);
    var _ := store.Save(second);
    explicitId, assignedId := first.id, second.id;
    assert store.storage.Keys == {1};
    held := |store.storage|;
    survivor := store.storage[1].data.name;
  }

  /** A record saved behind the proxy's back is not cached; the first
      lookup reads it through from the store and caches that copy, and the
      second lookup is answered from the cache with the same object. */
  method ProxyReadThrough() returns (cachedBefore: bool, cachedAfter: bool, sameRecord: bool)
    ensures !cachedBefore && cachedAfter && sameRecord
  {
    var db := new DbStore<CategoryInfo>();
    var proxy := new CachingProxy(db);
    var category := Factory.CreateCategory(EXPENSE_CATEGORY, "Food");
    var _ := db.Save(category);
    cachedBefore := 1 in proxy.cache;
    var miss := proxy.FindById(1);
    cachedAfter := 1 in proxy.cache;
    var hit := proxy.FindById(1);
    assert db.lookups == 1;
    sameRecord := miss.Some? && hit.Some? && miss.value == hit.value && miss.value != category;
  }

  /** After a read-through, the proxy caches and hands out the store's
      lookup copy, not the record the store holds: editing what `FindById`
      returned changes the cache but not the store, and the two no longer
      agree. */
  method ProxyReadThroughEdit() returns (cachedName: string, storedName: string)
    ensures cachedName == "Groceries" && storedName == "Food"
  {
    var db := new DbStore<CategoryInfo>();
    var proxy := new CachingProxy(db);
    var food := Factory.CreateCategory(EXPENSE_CATEGORY, "Food");
    var _ := db.Save(food);
    var found := proxy.FindById(1);
    var read := found.value;
    read.data := read.data.(name := "Groceries");
    assert !proxy.Coherent();
    cachedName := proxy.cache[1].data.name;
    storedName := db.storage[1].data.name;
  }

  /** After a save through the proxy, the cache and the store hold the same
      object, so editing the returned record reaches both. */
  method ProxySaveEdit() returns (cachedName: string, storedName: string)
    ensures cachedName == "Rent" && storedName == "Rent"
  {
    var db := new DbStore<CategoryInfo>();
    var proxy := new CachingProxy(db);
    var housing := Factory.CreateCategory(EXPENSE_CATEGORY, "Housing");
    var saved := proxy.Save(housing);
    saved.data := saved.data.(name := "Rent");
    cachedName := proxy.cache[1].data.name;
    storedName := db.storage[1].data.name;
  }

  /** An expense processor on an account of 1000: spending 300 is accepted,
      leaves 700 and is the one operation held, under id 1. */
  method ExpenseWithinBalance() returns (r: Result<Operation, Rejection>, balance: real, operationsHeld: nat)
    ensures r.Success? && r.value.id == Some(1)
    ensures balance == 700.0 && operationsHeld == 1
  {
    var processor, account := ProcessorOnOneAccount(ExpenseProcessor, 1000.0);
    var spend := Factory.CreateExpenseOperation(Some(1), 300.0, 0, "Rent", None);
    r := processor.ProcessOperation(spend);
    assert processor.accounts.storage == map[1 := account];
    balance := account.data.balance;
    assert processor.operations.storage.Keys == {1};
    operationsHeld := |processor.operations.storage|;
  }

  /** One expense processor on an account of 1000: spending 300 is accepted
      and leaves 700; spending 800 next is refused for lack of funds, the
      balance stays 700 and the first operation is still the only one held. */
  method ExpenseBeyondBalance() returns (first: Result<Operation, Rejection>, r: Result<Operation, Rejection>, balance: real, operationsHeld: nat)
    ensures first.Success? && r == Failure(InsufficientFunds)
    ensures balance == 700.0 && operationsHeld == 1
  {
    var processor, account := ProcessorOnOneAccount(ExpenseProcessor, 1000.0);
    var spend := Factory.CreateExpenseOperation(Some(1), 300.0, 0, "Rent", None);
    first := processor.ProcessOperation(spend);
    assert processor.accounts.storage == map[1 := account];
    assert processor.operations.storage.Keys == {1};
    var overspend := Factory.CreateExpenseOperation(Some(1), 800.0, 1, "Car", None);
    r := processor.ProcessOperation(overspend);
    balance := account.data.balance;
    operationsHeld := |processor.operations.storage|;
  }

  /** An income processor on an account of 100: receiving 50 is accepted and
      leaves 150; receiving 0 is refused as not positive. */
  method IncomeRun() returns (first: Result<Operation, Rejection>, balance: real, second: Result<Operation, Rejection>)
    ensures first.Success? && balance == 150.0
    ensures second == Failure(AmountNotPositive)
  {
    var processor, account := ProcessorOnOneAccount(IncomeProcessor, 100.0);
    var salary := Factory.CreateIncomeOperation(Some(1), 50.0, 0, "Salary", None);
    first := processor.ProcessOperation(salary);
    assert processor.accounts.storage == map[1 := account];
    balance := account.data.balance;
    var nothing := Factory.CreateIncomeOperation(Some(1), 0.0, 1, "Nothing", None);
    second := processor.ProcessOperation(nothing);
  }

  /** A processor of the given kind over plain stores holding one account,
      with id 1 and the given balance, and no operation. */
  method ProcessorOnOneAccount(kind: Specialization, initialBalance: real) returns (p: OperationProcessor, account: BankAccount)
    ensures p.Valid() && p.kind == kind
    ensures fresh(p.accounts) && fresh(p.operations) && fresh(account)
    ensures p.accounts.storage == map[1 := account] && account.id == Some(1)
    ensures account.data == AccountInfo("Main", initialBalance)
    ensures p.operations.storage == map[] && p.operations.idSequence == 1
  {
    var accounts := new PlainStore<AccountInfo>();
    var operations := new PlainStore<OperationInfo>();
    account := Factory.CreateBankAccount("Main", initialBalance);
    var _ := accounts.Save(account);
    p := new OperationProcessor(kind, accounts, operations);
  }

  /** Through the facade, an expense larger than the balance is stored as it
      is and the account keeps its balance: no funds check, no update. */
  method FacadeExpenseBypassesPipeline() returns (balance: real, stored: bool, amount: real)
    ensures balance == 1000.0 && stored && amount == 5000.0
  {
    var facade := EmptyFacade();
    var account := facade.CreateBankAccount("Main", 1000.0);
    var expense := facade.CreateExpenseOperation(account.id, 5000.0, 0, "Too much", None);
    balance := account.data.balance;
    stored := expense.id.value in facade.operations.cache && facade.operations.cache[expense.id.value] == expense;
    amount := expense.data.amount;
  }

  /** A facade over three proxies, each in front of an empty store. */
  method EmptyFacade() returns (f: FinanceTrackerFacade)
    ensures f.Valid()
    ensures fresh(f.accounts) && fresh(f.accounts.db) && fresh(f.categories) && fresh(f.categories.db)
    ensures fresh(f.operations) && fresh(f.operations.db)
  {
    var accountDb := new DbStore<AccountInfo>();
    var categoryDb := new DbStore<CategoryInfo>();
    var operationDb := new DbStore<OperationInfo>();
    var accounts := new CachingProxy(accountDb);
    var categories := new CachingProxy(categoryDb);
    var operations := new CachingProxy(operationDb);
    f := new FinanceTrackerFacade(accounts, categories, operations);
  }
}
