/** The entity factory: each method builds a new record without id from the
    given fields, and checks none of them (a negative balance or amount is
    kept as given). */
module Factory {
  import opened Model

  method CreateBankAccount(name: string, initialBalance: real) returns (a: BankAccount)
    ensures fresh(a) && a.id == None
    ensures a.data.name == name && a.data.balance == initialBalance
  {
    a := new Entity(None, AccountInfo(name, initialBalance));
  }

  method CreateCategory(kind: CategoryType, name: string) returns (c: Category)
    ensures fresh(c) && c.id == None
    ensures c.data.kind == kind && c.data.name == name
  {
    c := new Entity(None, CategoryInfo(name, kind));
  }

  method CreateIncomeOperation(bankAccountId: Option<nat>, amount: real, date: Date,
                               description: string, categoryId: Option<nat>) returns (o: Operation)
    ensures fresh(o) && o.id == None
    ensures o.data == OperationInfo(INCOME, bankAccountId, amount, date, description, categoryId)
  {
    o := new Entity(None, OperationInfo(INCOME, bankAccountId, amount, date, description, categoryId));
  }

  method CreateExpenseOperation(bankAccountId: Option<nat>, amount: real, date: Date,
                                description: string, categoryId: Option<nat>) returns (o: Operation)
    ensures fresh(o) && o.id == None
    ensures o.data == OperationInfo(EXPENSE, bankAccountId, amount, date, description, categoryId)
  {
    o := new Entity(None, OperationInfo(EXPENSE, bankAccountId, amount, date, description, categoryId));
  }
}
