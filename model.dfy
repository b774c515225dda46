/** Records of the finance tracker: bank accounts, categories and operations.
    Every record is a mutable object with a nullable identifier (`id`) and
    a value holding its other fields (`data`); the stores, caches, pipeline
    and facade share or copy these objects exactly as the Java code does. */
module Model {

  datatype Option<+T> = None | Some(value: T)

  /** The outcome of a check that can reject: `Fail` carries the reason. */
  datatype Outcome<+E> = Pass | Fail(error: E)

  /** A result or the reason it was refused. */
  datatype Result<+T, +E> = Success(value: T) | Failure(error: E)

  datatype CategoryType = INCOME_CATEGORY | EXPENSE_CATEGORY

  datatype OperationType = INCOME | EXPENSE

  /** Calendar dates are day numbers; earlier days are smaller. */
  type Date = int

  /** The fields of a bank account other than its id. */
  datatype AccountInfo = AccountInfo(name: string, balance: real)

  /** The fields of a category other than its id. */
  datatype CategoryInfo = CategoryInfo(name: string, kind: CategoryType)

  /** The fields of an operation other than its id. The account and category
      references are nullable in the source, hence `Option`. */
  datatype OperationInfo = OperationInfo(
    kind: OperationType,
    bankAccountId: Option<nat>,
    amount: real,
    date: Date,
    description: string,
    categoryId: Option<nat>)

  /** A record object: `id` is `None` until a store assigns one. */
  class Entity<D> {
    var id: Option<nat>
    var data: D

    constructor (id: Option<nat>, data: D)
      ensures this.id == id && this.data == data
    {
      this.id := id;
      this.data := data;
    }
  }

  type BankAccount = Entity<AccountInfo>
  type Category = Entity<CategoryInfo>
  type Operation = Entity<OperationInfo>

  /** Every record held under key `k` carries `Some(k)` as its id. The stores
      and caches keep this for every entry they hold; it is also what makes
      the records at two different keys two different objects. */
  ghost predicate KeyedById<D>(m: map<nat, Entity<D>>)
    reads m.Values`id
  {
    forall k :: k in m ==> m[k].id == Some(k)
  }

  /** The field values held under each key. */
  ghost function DataOf<D>(m: map<nat, Entity<D>>): map<nat, D>
    reads m.Values`data
  {
    map k | k in m :: m[k].data
  }

  /** No object occurs twice in `s`. */
  predicate Distinct<T(==)>(s: seq<T>) {
    forall i, j :: 0 <= i < j < |s| ==> s[i] != s[j]
  }

  /** Filter predicates, written as the stream filters in the source write them. */

  function HasCategoryType(t: CategoryType): CategoryInfo -> bool {
    (c: CategoryInfo) => c.kind == t
  }

  function HasOperationType(t: OperationType): OperationInfo -> bool {
    (o: OperationInfo) => o.kind == t
  }

  function OfAccount(accountId: Option<nat>): OperationInfo -> bool {
    (o: OperationInfo) => o.bankAccountId == accountId
  }

  function OfCategory(categoryId: Option<nat>): OperationInfo -> bool {
    (o: OperationInfo) => o.categoryId == categoryId
  }

  /** `!date.isBefore(start) && !date.isAfter(end)` */
  function InDateRange(start: Date, end: Date): OperationInfo -> bool {
    (o: OperationInfo) => !(o.date < start) && !(o.date > end)
  }

  /** The account filter calls `equals` on the stored account reference, so
      it needs every stored operation to carry one. */
  ghost predicate AccountRefsSet(m: map<nat, Operation>)
    reads m.Values`data
  {
    forall k :: k in m ==> m[k].data.bankAccountId.Some?
  }

  /** Likewise for the category filter and the category reference. */
  ghost predicate CategoryRefsSet(m: map<nat, Operation>)
    reads m.Values`data
  {
    forall k :: k in m ==> m[k].data.categoryId.Some?
  }
}
