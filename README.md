# Finance tracker persistence and operation pipeline in Dafny

This project models the core of a small personal-finance tracker: bank
accounts, income/expense categories and money operations, kept in in-memory
stores, fronted by caching proxies, changed by an operation-processing
pipeline, and reached through a facade.

- `model.dfy` (module `Model`): the records. Each record is a mutable object
  (`Entity<D>`) with a nullable id and a value `D` holding its other fields
  (`AccountInfo`, `CategoryInfo`, `OperationInfo`). Objects are used, not
  values, because which components share a record and which copy it is part
  of the behaviour. `double` amounts and balances are `real`, dates are day
  numbers, nullable `Long` ids are `Option<nat>`. The filter predicates are
  written as the stream filters write them (the date filter as
  `!(date < start) && !(date > end)`).
- `traversal.dfy` (module `Traversal`): the loops the stores share:
  listing the values of a map, filtering them, and copying them field by field.
- `db_repository.dfy` (module `DbRepository`): the database stand-ins, one
  generic class `DbStore<D>` for the three entity kinds. A save copies the
  argument, assigns the counter value to a record without id (writing it back
  into the argument) and returns the stored copy; reads hand out new copies.
  Ghost counters record how often `Save` and `FindById` are called.
- `plain_repository.dfy` (module `PlainRepository`): the non-copying stores
  (`PlainStore<D>`) that the pipeline works on; they store and hand out the
  caller's objects.
- `repository_proxy.dfy` (module `RepositoryProxy`): the write-through,
  read-through caching proxy `CachingProxy<D>` in front of a `DbStore<D>`.
  `Coherent()` says that the cache and the store hold the same ids with the
  same fields; every proxy operation keeps it.
- `factory.dfy` (module `Factory`): the four record constructors.
- `service.dfy` (module `Service`): the processing template and its income
  and expense processors as one class `OperationProcessor` with a `kind`.
  The functions `Check`, `Applied` and `Step` are the specification of one
  processing call on the account fields, `Replay` that of a sequence of
  calls; `ProcessOperation` is proved against them, and the lemmas prove
  that balances never go negative and that untouched accounts stay as they
  are.
- `facade.dfy` (module `Facade`): the facade over the three proxies. Lookups
  return `null` for an absent id. Operations are created by saving them, not
  by running the pipeline, so no funds check happens and no balance changes.
- `scenarios.dfy` (module `Scenarios`): concrete runs with their outcomes:
  copy semantics of the database stand-in, an id collision, a read-through,
  accepted and refused expenses, an income run, and a facade expense that
  bypasses the funds check.

Two behaviours of the code are modelled as they are. First, the id counter
never moves past an explicitly given id, so a later record saved without id
can receive the same id and replace the earlier record
(`Scenarios.ExplicitIdCollision`). Second, deleting an account or an
operation leaves the rest alone: operations that refer to a deleted account
stay, and a deleted operation's effect on its account's balance is not undone.

## Model

| member | source | states |
|---|---|---|
| Model.Entity.constructor | src/main/java/com/financetracker/model/Operation.java:12-23 | A record built from an id and its other fields holds exactly those. |
| Traversal.ValuesOf | src/main/java/com/financetracker/repository/BankAccountRepository.java:32-35 | Lists every record of a map keyed by id exactly once: length equals the number of entries, no repeats, each element is the record under its own id, every held record appears. |
| Traversal.Select | src/main/java/com/financetracker/repository/OperationRepository.java:36-59 | The stream filter: the result holds exactly the records of the map whose fields satisfy the predicate, each once. |
| Traversal.CopyAll | src/main/java/com/financetracker/repository/db/BankAccountDbRepository.java:47-57 | Field-by-field copies: same length, each element a new object with the same id and fields as the original at that position. |
| DbRepository.DbStore.constructor | src/main/java/com/financetracker/repository/db/BankAccountDbRepository.java:14-15 | A new store is empty and its id counter starts at 1. |
| DbRepository.DbStore.Save | src/main/java/com/financetracker/repository/db/BankAccountDbRepository.java:17-30 | A null id gets the counter value, written back into the argument, and the counter advances by one; an explicit id is kept and the counter stays; a new copy is stored under the id, replacing any entry, and that copy is returned; the store is consulted once. |
| DbRepository.DbStore.FindById | src/main/java/com/financetracker/repository/db/BankAccountDbRepository.java:32-44 | Present exactly when the id is held; the result is a new object equal in id and fields to the held record; one lookup is counted. |
| DbRepository.DbStore.FindAll | src/main/java/com/financetracker/repository/db/BankAccountDbRepository.java:46-57 | One new copy per held id: the length equals the number of entries and every held id appears with its fields. |
| DbRepository.DbStore.FindWhere | src/main/java/com/financetracker/repository/db/CategoryDbRepository.java:59-69 | New copies of exactly the held records whose fields satisfy the filter, one per id. |
| DbRepository.DbStore.Delete | src/main/java/com/financetracker/repository/db/BankAccountDbRepository.java:59-62 | Removes the record's id and nothing else; a record without id, or an absent id, changes nothing. |
| DbRepository.DbStore.DeleteById | src/main/java/com/financetracker/repository/db/BankAccountDbRepository.java:64-67 | Removes only that key (no-op when absent); the counter is untouched, so the id is not reissued. |
| DbRepository.FindCategoriesByType | src/main/java/com/financetracker/repository/db/CategoryDbRepository.java:59-69 | Copies of exactly the stored categories of the given type, each once (pairwise distinct ids). |
| DbRepository.FindOperationsByAccount | src/main/java/com/financetracker/repository/db/OperationDbRepository.java:73-87 | Copies of exactly the stored operations on the given account, each once (pairwise distinct ids), when every stored operation names an account. |
| DbRepository.FindOperationsByType | src/main/java/com/financetracker/repository/db/OperationDbRepository.java:89-103 | Copies of exactly the stored operations of the given type, each once (pairwise distinct ids). |
| DbRepository.FindOperationsByCategory | src/main/java/com/financetracker/repository/db/OperationDbRepository.java:105-119 | Copies of exactly the stored operations in the given category, each once (pairwise distinct ids), when every stored operation names a category. |
| DbRepository.FindOperationsInRange | src/main/java/com/financetracker/repository/db/OperationDbRepository.java:121-136 | Copies of exactly the stored operations dated from start to end, both ends included, each once (pairwise distinct ids). |
| PlainRepository.PlainStore.constructor | src/main/java/com/financetracker/repository/BankAccountRepository.java:15-16 | A new store is empty and its id counter starts at 1. |
| PlainRepository.PlainStore.Save | src/main/java/com/financetracker/repository/BankAccountRepository.java:18-25 | A null id gets the counter value and the counter advances by one; an explicit id is kept and the counter stays; the argument object itself is stored under the id (upsert) and returned. |
| PlainRepository.PlainStore.FindById | src/main/java/com/financetracker/repository/BankAccountRepository.java:27-30 | Present exactly when the id is held, and then it is the held object itself. |
| PlainRepository.PlainStore.FindAll | src/main/java/com/financetracker/repository/BankAccountRepository.java:32-35 | Exactly the held objects, each once; the length equals the number of entries. |
| PlainRepository.PlainStore.FindWhere | src/main/java/com/financetracker/repository/CategoryRepository.java:35-39 | Exactly the held objects whose fields satisfy the filter, each once. |
| PlainRepository.PlainStore.Delete | src/main/java/com/financetracker/repository/BankAccountRepository.java:37-40 | Removes the record's id; no-op for a record without id or an absent id. |
| PlainRepository.PlainStore.DeleteById | src/main/java/com/financetracker/repository/BankAccountRepository.java:42-45 | Removes only that key; idempotent. |
| PlainRepository.FindCategoriesByType | src/main/java/com/financetracker/repository/CategoryRepository.java:35-39 | Exactly the held categories of the given type. |
| PlainRepository.FindOperationsByAccount | src/main/java/com/financetracker/repository/OperationRepository.java:36-40 | Exactly the held operations on the given account, when every held operation names one. |
| PlainRepository.FindOperationsByType | src/main/java/com/financetracker/repository/OperationRepository.java:42-46 | Exactly the held operations of the given type. |
| PlainRepository.FindOperationsByCategory | src/main/java/com/financetracker/repository/OperationRepository.java:48-52 | Exactly the held operations in the given category, when every held operation names one. |
| PlainRepository.FindOperationsInRange | src/main/java/com/financetracker/repository/OperationRepository.java:54-59 | Exactly the held operations with start <= date <= end. |
| RepositoryProxy.CachingProxy.constructor | src/main/java/com/financetracker/repository/proxy/BankAccountRepositoryProxy.java:18-30 | After construction the cache holds the store's records keyed by id, coherent with the store, and every cached record is a new copy. |
| RepositoryProxy.CachingProxy.InitializeCache | src/main/java/com/financetracker/repository/proxy/BankAccountRepositoryProxy.java:25-30 | The loop over the store's findAll fills the empty cache with exactly the store's ids and fields. |
| RepositoryProxy.CachingProxy.Save | src/main/java/com/financetracker/repository/proxy/BankAccountRepositoryProxy.java:32-37 | Write-through: one save on the store (id rules as the store's), then the returned record is cached under its id and returned; no lookup on the store; coherence is kept. |
| RepositoryProxy.CachingProxy.FindById | src/main/java/com/financetracker/repository/proxy/BankAccountRepositoryProxy.java:39-51 | A cached id returns the cached object and makes no store lookup; otherwise exactly one store lookup, and a present result is cached under the id; an id absent from both leaves the cache unchanged; coherence is kept. |
| RepositoryProxy.CachingProxy.FindAll | src/main/java/com/financetracker/repository/proxy/BankAccountRepositoryProxy.java:53-56 | Exactly the cached objects, each once; the store is not read. |
| RepositoryProxy.CachingProxy.FindWhere | src/main/java/com/financetracker/repository/proxy/CategoryRepositoryProxy.java:66-71 | Exactly the cached objects whose fields satisfy the filter; the store is not read. |
| RepositoryProxy.CachingProxy.Delete | src/main/java/com/financetracker/repository/proxy/BankAccountRepositoryProxy.java:58-62 | Removes the id from the store, then from the cache; coherence is kept. |
| RepositoryProxy.CachingProxy.DeleteById | src/main/java/com/financetracker/repository/proxy/BankAccountRepositoryProxy.java:64-68 | Removes the id from the store, then from the cache, so it is absent from both; coherence is kept. |
| RepositoryProxy.FindCategoriesByType | src/main/java/com/financetracker/repository/proxy/CategoryRepositoryProxy.java:66-71 | Exactly the cached categories of the given type. |
| RepositoryProxy.FindOperationsByAccount | src/main/java/com/financetracker/repository/proxy/OperationRepositoryProxy.java:61-66 | Exactly the cached operations on the given account. |
| RepositoryProxy.FindOperationsByType | src/main/java/com/financetracker/repository/proxy/OperationRepositoryProxy.java:68-73 | Exactly the cached operations of the given type. |
| RepositoryProxy.FindOperationsByCategory | src/main/java/com/financetracker/repository/proxy/OperationRepositoryProxy.java:75-80 | Exactly the cached operations in the given category. |
| RepositoryProxy.FindOperationsInRange | src/main/java/com/financetracker/repository/proxy/OperationRepositoryProxy.java:82-88 | Exactly the cached operations with start <= date <= end. |
| Factory.CreateBankAccount | src/main/java/com/financetracker/factory/FinanceEntityFactory.java:11-16 | A new account with no id and exactly the given name and balance, unchecked. |
| Factory.CreateCategory | src/main/java/com/financetracker/factory/FinanceEntityFactory.java:18-23 | A new category with no id and exactly the given type and name. |
| Factory.CreateIncomeOperation | src/main/java/com/financetracker/factory/FinanceEntityFactory.java:25-35 | A new INCOME operation with no id and the other fields copied verbatim, unchecked. |
| Factory.CreateExpenseOperation | src/main/java/com/financetracker/factory/FinanceEntityFactory.java:37-47 | A new EXPENSE operation with no id and the other fields copied verbatim, unchecked. |
| Service.NewBalance | src/main/java/com/financetracker/service/IncomeOperationProcessor.java:24-27 | For a positive amount the balance rises exactly for income and falls for expense; it is unchanged exactly when the amount is zero. |
| Service.Check | src/main/java/com/financetracker/service/OperationProcessingTemplate.java:34-47 | Accepts exactly when amount > 0, the account id is set and held, and (expense only) balance >= amount; each rejection is named exactly when its check is the first to fail: amount <= 0 (AmountNotPositive), then a missing account id (MissingAccountId), then an id not held (AccountNotFound); insufficient funds is reported exactly for an expense on a held account with balance < amount. |
| Service.Applied | src/main/java/com/financetracker/service/OperationProcessingTemplate.java:49-57 | Only the referenced account changes, only its balance, to the recomputed balance; names and the set of accounts are unchanged; a missing account changes nothing. |
| Service.Step | src/main/java/com/financetracker/service/OperationProcessingTemplate.java:18-30 | One processing call on account fields: a rejected operation changes nothing, and no account other than the referenced one ever changes. |
| Service.Replay | src/main/java/com/financetracker/service/OperationProcessingTemplate.java:18-30 | Processing a sequence of operations keeps the set of accounts. |
| Service.ExpenseNeverOverdraws | src/main/java/com/financetracker/service/ExpenseOperationProcessor.java:34-43 | An expense that passes validation leaves its account at old - amount >= 0. |
| Service.AcceptedStep | src/main/java/com/financetracker/service/OperationProcessingTemplate.java:21-25 | For an operation that passes validation, processing amounts to the balance update, and an accepted expense leaves its balance >= 0. |
| Service.StepKeepsNoOverdraft | src/main/java/com/financetracker/service/ExpenseOperationProcessor.java:27-43 | One processed operation of either kind keeps every balance non-negative. |
| Service.ReplayKeepsNoOverdraft | src/main/java/com/financetracker/service/ExpenseOperationProcessor.java:27-43 | In a sequential run, balances that start non-negative stay non-negative. |
| Service.ReplayLeavesOtherAccounts | src/main/java/com/financetracker/service/OperationProcessingTemplate.java:49-57 | An account no processed operation refers to keeps its fields through any sequence of operations. |
| Service.ExpenseUndoesIncome | src/main/java/com/financetracker/service/ExpenseOperationProcessor.java:40-43 | The expense balance rule is the inverse of the income rule: applying both with the same operation restores every account. |
| Service.OperationProcessor.constructor | src/main/java/com/financetracker/service/OperationProcessingTemplate.java:14-16 | A processor is bound to its account store and operation store. |
| Service.OperationProcessor.ProcessOperation | src/main/java/com/financetracker/service/OperationProcessingTemplate.java:18-30 | Validate, execute, update in that order: on rejection the reason is the one Check gives and neither store nor any balance changes; on success the operation itself is returned and held under its (possibly new) id, the accounts change as Applied says, and an expense leaves its balance >= 0. |
| Service.OperationProcessor.ExecuteAndUpdate | src/main/java/com/financetracker/service/OperationProcessingTemplate.java:23-25 | Execute then update: the operation is held under its (possibly new) id and the account fields become Applied of the old ones; the account map itself and its counter are unchanged. |
| Service.OperationProcessor.ValidateOperation | src/main/java/com/financetracker/service/ExpenseOperationProcessor.java:27-38 | The verdict equals Check on the held account fields, including the expense processor's second lookup. |
| Service.OperationProcessor.ExecuteOperation | src/main/java/com/financetracker/service/IncomeOperationProcessor.java:19-22 | Saves the operation in the operation store with the store's id rules and returns the same object, now carrying an id. |
| Service.OperationProcessor.UpdateBankAccountBalance | src/main/java/com/financetracker/service/OperationProcessingTemplate.java:49-57 | Re-reads the account, sets only its balance to the recomputed one and saves it back; the account fields become Applied of the old ones; a missing account is skipped silently. |
| Facade.FinanceTrackerFacade.constructor | src/main/java/com/financetracker/facade/FinanceTrackerFacade.java:30-40 | The facade is bound to the three proxies. |
| Facade.FinanceTrackerFacade.CreateBankAccount | src/main/java/com/financetracker/facade/FinanceTrackerFacade.java:44-47 | The factory's account saved through the proxy: it gets the next id, has the given fields, and the returned record is the one stored and cached. |
| Facade.FinanceTrackerFacade.GetBankAccountById | src/main/java/com/financetracker/facade/FinanceTrackerFacade.java:49-52 | null exactly when the proxy reports the id absent; otherwise the proxy's record under that id. |
| Facade.FinanceTrackerFacade.GetAllBankAccounts | src/main/java/com/financetracker/facade/FinanceTrackerFacade.java:54-56 | Exactly the cached accounts. |
| Facade.FinanceTrackerFacade.UpdateBankAccount | src/main/java/com/financetracker/facade/FinanceTrackerFacade.java:58-60 | A plain upsert via the proxy's save. |
| Facade.FinanceTrackerFacade.DeleteBankAccount | src/main/java/com/financetracker/facade/FinanceTrackerFacade.java:62-64 | Deletes the id from store and cache and leaves operations that refer to it untouched. |
| Facade.FinanceTrackerFacade.CreateCategory | src/main/java/com/financetracker/facade/FinanceTrackerFacade.java:68-71 | The factory's category saved through the proxy under the next id. |
| Facade.FinanceTrackerFacade.GetCategoryById | src/main/java/com/financetracker/facade/FinanceTrackerFacade.java:73-76 | null exactly when the proxy reports the id absent. |
| Facade.FinanceTrackerFacade.GetAllCategories | src/main/java/com/financetracker/facade/FinanceTrackerFacade.java:78-80 | Exactly the cached categories. |
| Facade.FinanceTrackerFacade.GetCategoriesByType | src/main/java/com/financetracker/facade/FinanceTrackerFacade.java:82-84 | Exactly the cached categories of the given type. |
| Facade.FinanceTrackerFacade.UpdateCategory | src/main/java/com/financetracker/facade/FinanceTrackerFacade.java:86-88 | A plain upsert via the proxy's save. |
| Facade.FinanceTrackerFacade.DeleteCategory | src/main/java/com/financetracker/facade/FinanceTrackerFacade.java:90-92 | Deletes the id from store and cache and leaves operations that refer to it untouched. |
| Facade.FinanceTrackerFacade.CreateIncomeOperation | src/main/java/com/financetracker/facade/FinanceTrackerFacade.java:96-101 | Only saves the new operation through the proxy; no account object or balance changes. |
| Facade.FinanceTrackerFacade.CreateExpenseOperation | src/main/java/com/financetracker/facade/FinanceTrackerFacade.java:103-108 | Only saves the new operation; no funds check and no account object or balance changes. |
| Facade.FinanceTrackerFacade.GetOperationById | src/main/java/com/financetracker/facade/FinanceTrackerFacade.java:110-113 | null exactly when the proxy reports the id absent. |
| Facade.FinanceTrackerFacade.GetAllOperations | src/main/java/com/financetracker/facade/FinanceTrackerFacade.java:115-117 | Exactly the cached operations. |
| Facade.FinanceTrackerFacade.GetOperationsByBankAccountId | src/main/java/com/financetracker/facade/FinanceTrackerFacade.java:119-121 | Exactly the cached operations on the given account. |
| Facade.FinanceTrackerFacade.GetOperationsByType | src/main/java/com/financetracker/facade/FinanceTrackerFacade.java:123-125 | Exactly the cached operations of the given type. |
| Facade.FinanceTrackerFacade.GetOperationsByCategoryId | src/main/java/com/financetracker/facade/FinanceTrackerFacade.java:127-129 | Exactly the cached operations in the given category. |
| Facade.FinanceTrackerFacade.GetOperationsByDateRange | src/main/java/com/financetracker/facade/FinanceTrackerFacade.java:131-133 | Exactly the cached operations dated from start to end inclusive. |
| Facade.FinanceTrackerFacade.DeleteOperation | src/main/java/com/financetracker/facade/FinanceTrackerFacade.java:135-137 | Deletes the id from store and cache; no balance is touched, so the operation's effect is not reversed. |
| Facade.FinanceTrackerFacade.RecalculateAllBalances | src/main/java/com/financetracker/facade/FinanceTrackerFacade.java:142-144 | Changes no balance. |
| Scenarios.DbStoreCopies | src/test/java/com/financetracker/repository/db/BankAccountDbRepositoryTest.java:25-64 | Editing the saved argument does not reach the store, editing the record save returned does, editing a looked-up copy does not. |
| Scenarios.ExplicitIdCollision | src/main/java/com/financetracker/repository/db/BankAccountDbRepository.java:19-21 | An explicit id 1 does not move the counter, so the next record without id also gets 1 and replaces the first. |
| Scenarios.ProxyReadThrough | src/test/java/com/financetracker/repository/proxy/RepositoryProxy.java:59-70 | A record not yet cached is read through and cached; the following lookup returns the same cached object. |
| Scenarios.ProxyReadThroughEdit | src/main/java/com/financetracker/repository/proxy/BankAccountRepositoryProxy.java:40-51 | A read-through caches the store's lookup copy, so editing the returned record changes the cached fields but not the stored ones: cache and store disagree. |
| Scenarios.ProxySaveEdit | src/main/java/com/financetracker/repository/proxy/BankAccountRepositoryProxy.java:33-37 | After a save through the proxy the cache and the store hold the same object, so editing the returned record changes both. |
| Scenarios.ExpenseWithinBalance | src/main/java/com/financetracker/service/ExpenseOperationProcessor.java:27-43 | 1000 minus an accepted expense of 300 leaves 700, with one operation held under id 1. |
| Scenarios.ExpenseBeyondBalance | src/main/java/com/financetracker/service/ExpenseOperationProcessor.java:27-43 | On one processor and account of 1000, an expense of 300 is accepted, then an expense of 800 is refused for insufficient funds; the balance stays 700 and the first operation is still the only one held. |
| Scenarios.IncomeRun | src/main/java/com/financetracker/service/IncomeOperationProcessor.java:19-27 | An income of 50 on 100 leaves 150; an amount of 0 is refused as not positive. |
| Scenarios.FacadeExpenseBypassesPipeline | src/main/java/com/financetracker/facade/FinanceTrackerFacade.java:103-108 | An expense of 5000 created through the facade on an account of 1000 is stored and the balance stays 1000. |

## Left out

- The console application, the file-export visitors and the Spring, Lombok
  and Mockito mechanics are not part of this model. This includes the
  console's check that a category's type matches the operation's type; no
  modelled component makes that check.
- Concurrency: the proxies' concurrent maps are modelled as plain maps used
  sequentially.
- Floating point: amounts and balances are `real`, so there is no rounding,
  and there are no NaN or infinite amounts. In the source, a NaN amount would
  pass the `amount <= 0` check.
- Dates are day numbers. The start time and the timing hook of
  `processOperation` read the clock and do nothing else, so they are left out.
- Service.ExpenseUndoesIncome: the expense rule undoes the income rule
  exactly only because `real` has no rounding; with the source's `double`,
  `b + a - a` can differ from `b` (0.1 + 0.2 - 0.2 is not 0.1).
- Ids are unbounded naturals: the `Long` counter's overflow is not modelled.
- Null ids passed to lookups and deletions are not modelled (the parameters
  are `nat`). On the proxies the concurrent map would throw
  `NullPointerException`.
- RepositoryProxy.CachingProxy.Delete: requires the record to have an id.
  With a null id the source deletes nothing from the store and then throws
  from the cache's `remove`; that exception path is not modelled.
- DbRepository.FindOperationsByAccount, PlainRepository.FindOperationsByAccount,
  RepositoryProxy.FindOperationsByAccount and
  Facade.FinanceTrackerFacade.GetOperationsByBankAccountId: require every
  held operation to name an account, because the source calls `equals` on the
  held reference and throws on a null one.
- DbRepository.FindOperationsByCategory, PlainRepository.FindOperationsByCategory,
  RepositoryProxy.FindOperationsByCategory and
  Facade.FinanceTrackerFacade.GetOperationsByCategoryId: likewise require
  every held operation to name a category.
- Null names, descriptions and dates are not modelled: strings and dates
  always have a value, so the date filter cannot throw.
- Exceptions are results: the pipeline's `IllegalArgumentException`s are
  `Failure` values carrying a `Rejection` (one per message), and a rejected
  call changes nothing, as in the source, where the exception escapes before
  any state is written.
- Record equality: the source's generated `equals` compares fields; the
  model compares objects by identity and states field equality (`data` and
  `id`) wherever field equality is meant.
- Scenarios.ProxyReadThrough: states the cache contents and the identity of
  the returned records; the store-lookup count is a ghost counter, so the
  scenario only asserts it in its body, while the count itself is stated by
  RepositoryProxy.CachingProxy.FindById.
