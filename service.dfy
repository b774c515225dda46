/** The operation-processing template and its two processors. Processing
    runs four steps in a fixed order: validate, execute (save the operation),
    update the balance of the operation's account, and a timing hook that
    does nothing. The income and expense processors differ only in how the
    new balance is computed and in the expense processor's funds check, so
    one class with a `kind` stands for both. Both processors work on the
    plain, non-copying stores. */
module Service {
  import opened Model
  import opened PlainRepository

  /** The two subclasses of the template. */
  datatype Specialization = IncomeProcessor | ExpenseProcessor

  /** The messages of the `IllegalArgumentException`s processing throws. */
  datatype Rejection = AmountNotPositive | MissingAccountId | AccountNotFound | InsufficientFunds

  /** `calculateNewBalance`: income adds the amount, expense subtracts it. */
  function NewBalance(kind: Specialization, balance: real, amount: real): (r: real)
    ensures amount > 0.0 ==> (r > balance <==> kind == IncomeProcessor)
    ensures r == balance <==> amount == 0.0
  {
    match kind
    case IncomeProcessor => balance + amount
    case ExpenseProcessor => balance - amount
  }

  /** `validateOperation` on the account fields held when it runs: the
      template's checks in their order, then the expense processor's funds
      check. */
  function Check(kind: Specialization, op: OperationInfo, accounts: map<nat, AccountInfo>): (r: Outcome<Rejection>)
    ensures r == Pass <==>
      && op.amount > 0.0
      && op.bankAccountId.Some? && op.bankAccountId.value in accounts
      && (kind == ExpenseProcessor ==> accounts[op.bankAccountId.value].balance >= op.amount)
    ensures r == Fail(AmountNotPositive) <==> op.amount <= 0.0
    ensures r == Fail(MissingAccountId) <==> op.amount > 0.0 && op.bankAccountId.None?
    ensures r == Fail(AccountNotFound) <==>
      op.amount > 0.0 && op.bankAccountId.Some? && op.bankAccountId.value !in accounts
    ensures r == Fail(InsufficientFunds) <==>
      && kind == ExpenseProcessor && op.amount > 0.0
      && op.bankAccountId.Some? && op.bankAccountId.value in accounts
      && accounts[op.bankAccountId.value].balance < op.amount
  {
    if op.amount <= 0.0 then Fail(AmountNotPositive)
    else if op.bankAccountId.None? then Fail(MissingAccountId)
    else if op.bankAccountId.value !in accounts then Fail(AccountNotFound)
    else if kind == ExpenseProcessor && accounts[op.bankAccountId.value].balance < op.amount then Fail(InsufficientFunds)
    else Pass
  }

  /** The account fields after `updateBankAccountBalance` for `op`: the
      balance of the account `op` refers to is recomputed and nothing else
      changes; when that account is not held, nothing changes at all. */
  function Applied(kind: Specialization, accounts: map<nat, AccountInfo>, op: OperationInfo): (r: map<nat, AccountInfo>)
    ensures r.Keys == accounts.Keys
    ensures forall k :: k in accounts && op.bankAccountId != Some(k) ==> r[k] == accounts[k]
    ensures forall k :: k in accounts ==> r[k].name == accounts[k].name
    ensures op.bankAccountId.Some? && op.bankAccountId.value in accounts ==>
      r[op.bankAccountId.value].balance == NewBalance(kind, accounts[op.bankAccountId.value].balance, op.amount)
  {
    match op.bankAccountId
    case Some(id) =>
      if id in accounts then
        accounts[id := accounts[id].(balance := NewBalance(kind, accounts[id].balance, op.amount))]
      else accounts
    case None => accounts
  }

  /** The account fields after one `processOperation` call: unchanged when
      the operation is rejected, recomputed when it is accepted. */
  function Step(accounts: map<nat, AccountInfo>, kind: Specialization, op: OperationInfo): (r: map<nat, AccountInfo>)
    ensures r.Keys == accounts.Keys
    ensures Check(kind, op, accounts).Fail? ==> r == accounts
    ensures forall k :: k in accounts && op.bankAccountId != Some(k) ==> r[k] == accounts[k]
  {
    if Check(kind, op, accounts).Fail? then accounts else Applied(kind, accounts, op)
  }

  /** The account fields after processing `requests` one after another, each
      by the processor it names. */
  function Replay(accounts: map<nat, AccountInfo>, requests: seq<(Specialization, OperationInfo)>): (r: map<nat, AccountInfo>)
    ensures r.Keys == accounts.Keys
    decreases |requests|
  {
    if requests == [] then accounts
    else Replay(Step(accounts, requests[0].0, requests[0].1), requests[1..])
  }

  /** No balance is negative. */
  ghost predicate NoOverdraft(accounts: map<nat, AccountInfo>) {
    forall k :: k in accounts ==> accounts[k].balance >= 0.0
  }

  /** An expense that passes validation never takes its account below zero. */
  lemma ExpenseNeverOverdraws(accounts: map<nat, AccountInfo>, op: OperationInfo)
    requires Check(ExpenseProcessor, op, accounts) == Pass
    ensures Applied(ExpenseProcessor, accounts, op)[op.bankAccountId.value].balance >= 0.0
  {
  }

  /** An accepted operation's step is its balance update, and an accepted
      expense leaves its account without overdraft. */
  lemma AcceptedStep(kind: Specialization, accounts: map<nat, AccountInfo>, op: OperationInfo)
    requires Check(kind, op, accounts) == Pass
    ensures Step(accounts, kind, op) == Applied(kind, accounts, op)
    ensures kind == ExpenseProcessor ==> Applied(kind, accounts, op)[op.bankAccountId.value].balance >= 0.0
  {
    if kind == ExpenseProcessor {
      ExpenseNeverOverdraws(accounts, op);
    }
  }

  /** One processed operation, of either kind, keeps every balance
      non-negative. */
  lemma StepKeepsNoOverdraft(accounts: map<nat, AccountInfo>, kind: Specialization, op: OperationInfo)
    requires NoOverdraft(accounts)
    ensures NoOverdraft(Step(accounts, kind, op))
  {
  }

  /** Accounts that start without overdraft stay without overdraft however
      many operations are processed, in whatever order. */
  lemma {:induction false} ReplayKeepsNoOverdraft(accounts: map<nat, AccountInfo>, requests: seq<(Specialization, OperationInfo)>)
    requires NoOverdraft(accounts)
    ensures NoOverdraft(Replay(accounts, requests))
    decreases |requests|
  {
    if requests != [] {
      StepKeepsNoOverdraft(accounts, requests[0].0, requests[0].1);
      ReplayKeepsNoOverdraft(Step(accounts, requests[0].0, requests[0].1), requests[1..]);
    }
  }

  /** An account that no processed operation refers to keeps its fields. */
  lemma {:induction false} ReplayLeavesOtherAccounts(accounts: map<nat, AccountInfo>, requests: seq<(Specialization, OperationInfo)>, k: nat)
    requires k in accounts
    requires forall i :: 0 <= i < |requests| ==> requests[i].1.bankAccountId != Some(k)
    ensures Replay(accounts, requests)[k] == accounts[k]
    decreases |requests|
  {
    if requests != [] {
      ReplayLeavesOtherAccounts(Step(accounts, requests[0].0, requests[0].1), requests[1..], k);
    }
  }

  /** An income followed by an expense of the same amount on the same account
      restores every account. */
  lemma ExpenseUndoesIncome(accounts: map<nat, AccountInfo>, op: OperationInfo)
    ensures Applied(ExpenseProcessor, Applied(IncomeProcessor, accounts, op), op) == accounts
  {
  }

  class OperationProcessor {
    const kind: Specialization
    const accounts: PlainStore<AccountInfo>
    const operations: PlainStore<OperationInfo>

    constructor (kind: Specialization, accounts: PlainStore<AccountInfo>, operations: PlainStore<OperationInfo>)
      ensures this.kind == kind && this.accounts == accounts && this.operations == operations
    {
      this.kind := kind;
      this.accounts := accounts;
      this.operations := operations;
    }

    ghost predicate Valid()
      reads accounts`idSequence, accounts`storage, accounts.storage.Values`id
      reads operations`idSequence, operations`storage, operations.storage.Values`id
    {
      accounts.Valid() && operations.Valid()
    }

    /** Runs validate, execute, balance update and the timing hook in that
        order. A rejected operation changes nothing; an accepted one is held
        in the operation store (with an id assigned if it had none) and the
        balance of its account has been recomputed. */
    method ProcessOperation(op: Operation) returns (r: Result<Operation, Rejection>)
      requires Valid()
      modifies accounts`storage, accounts`idSequence, accounts.storage.Values
      modifies operations`storage, operations`idSequence, op`id
      ensures Valid()
      ensures accounts.storage == old(accounts.storage) && accounts.idSequence == old(accounts.idSequence)
      ensures r.Failure? <==> old(Check(kind, op.data, accounts.Rows())).Fail?
      ensures r.Failure? ==>
        && Fail(r.error) == old(Check(kind, op.data, accounts.Rows()))
        && accounts.Rows() == old(accounts.Rows())
        && operations.storage == old(operations.storage) && operations.idSequence == old(operations.idSequence)
        && op.id == old(op.id)
      ensures r.Success? ==>
        && r.value == op && op.id.Some?
        && (old(op.id).None? ==> op.id == Some(old(operations.idSequence)) && operations.idSequence == old(operations.idSequence) + 1)
        && (old(op.id).Some? ==> op.id == old(op.id) && operations.idSequence == old(operations.idSequence))
        && operations.storage == old(operations.storage)[op.id.value := op]
        && accounts.Rows() == Applied(kind, old(accounts.Rows()), op.data)
      ensures r.Success? && kind == ExpenseProcessor ==> accounts.Rows()[op.data.bankAccountId.value].balance >= 0.0
      ensures accounts.Rows() == Step(old(accounts.Rows()), kind, op.data)
    {
      var verdict := ValidateOperation(op);
      if verdict.Fail? {
        return Failure(verdict.error);
      }
      AcceptedStep(kind, accounts.Rows(), op.data);
      var processed := ExecuteAndUpdate(op);
      r := Success(processed);
    }

    /** The steps after a successful validation: the operation is saved, then
        its account's balance is recomputed. */
    method ExecuteAndUpdate(op: Operation) returns (processed: Operation)
      requires Valid()
      modifies accounts`storage, accounts`idSequence, accounts.storage.Values
      modifies operations`storage, operations`idSequence, op`id
      ensures Valid()
      ensures accounts.storage == old(accounts.storage) && accounts.idSequence == old(accounts.idSequence)
      ensures processed == op && op.id.Some?
      ensures old(op.id).None? ==> op.id == Some(old(operations.idSequence)) && operations.idSequence == old(operations.idSequence) + 1
      ensures old(op.id).Some? ==> op.id == old(op.id) && operations.idSequence == old(operations.idSequence)
      ensures operations.storage == old(operations.storage)[op.id.value := op]
      ensures accounts.Rows() == Applied(kind, old(accounts.Rows()), op.data)
    {
      ghost var before := accounts.Rows();
      processed := ExecuteOperation(op);
      assert accounts.Rows() == before;
      UpdateBankAccountBalance(processed);
    }

    /** The template's checks (amount, account id, account present), then,
        for expenses, a second lookup of the account and the funds check. */
    method ValidateOperation(op: Operation) returns (verdict: Outcome<Rejection>)
      requires accounts.Valid()
      ensures verdict == Check(kind, op.data, accounts.Rows())
    {
      if op.data.amount <= 0.0 {
        return Fail(AmountNotPositive);
      }
      if op.data.bankAccountId.None? {
        return Fail(MissingAccountId);
      }
      var found := accounts.FindById(op.data.bankAccountId.value);
      if found.None? {
        return Fail(AccountNotFound);
      }
      if kind == ExpenseProcessor {
        var again := accounts.FindById(op.data.bankAccountId.value);
        if again.Some? && again.value.data.balance < op.data.amount {
          return Fail(InsufficientFunds);
        }
      }
      verdict := Pass;
    }

    /** Saves the operation in the operation store and returns what the store
        returned: the operation object itself. */
    method ExecuteOperation(op: Operation) returns (saved: Operation)
      requires operations.Valid()
      modifies operations`storage, operations`idSequence, op`id
      ensures operations.Valid()
      ensures saved == op && op.id.Some?
      ensures old(op.id).None? ==> op.id == Some(old(operations.idSequence)) && operations.idSequence == old(operations.idSequence) + 1
      ensures old(op.id).Some? ==> op.id == old(op.id) && operations.idSequence == old(operations.idSequence)
      ensures operations.storage == old(operations.storage)[op.id.value := op]
    {
      saved := operations.Save(op);
    }

    /** Looks the operation's account up again, sets its balance to the
        recomputed one and saves it back. The plain store hands out the held
        account object, so the new balance is in the store as soon as it is
        set; the save puts the same object back under the same id. An
        operation without account id, or whose account is gone, changes
        nothing. */
    method UpdateBankAccountBalance(op: Operation)
      requires accounts.Valid()
      modifies accounts`storage, accounts`idSequence, accounts.storage.Values
      ensures accounts.Valid()
      ensures accounts.storage == old(accounts.storage) && accounts.idSequence == old(accounts.idSequence)
      ensures accounts.Rows() == Applied(kind, old(accounts.Rows()), op.data)
    {
      if op.data.bankAccountId.Some? {
        var found := accounts.FindById(op.data.bankAccountId.value);
        if found.Some? {
          ghost var before := accounts.Rows();
          var account := found.value;
          account.data := account.data.(balance := NewBalance(kind, account.data.balance, op.data.amount));
          assert accounts.Rows() == before[account.id.value := account.data];
          var _ := accounts.Save(account);
        }
      }
    }
  }
}
