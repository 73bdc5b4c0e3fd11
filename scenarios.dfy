/** Clients of the bank model: the sequence of calls the integration test
    file lays out, further runs of our own exercising the instructions'
    guards, and what the
    dashboard shows across a loan's life, each derived from the
    instructions' contracts alone. */
module Scenarios {
  import opened Wrappers
  import opened Bank
  import Dashboard

  const Alice: Pubkey := seq(32, i => 1)

  /** The integration test's cases in file order, with its values, counting
      the cases it keeps commented out (only the loan request is live): a
      reserve of 5_000_000_000, a deposit of 10_000_000 and a withdrawal of
      the same amount, the loan account's initialisation, a loan of 5_000_000
      at 5% for fifteen days, and its repayment with 5_250_000. The user ends
      with a zero balance, two log entries and no loan flag. */
  method IntegrationTestRun(depositedAt: i64, withdrawnAt: i64, now: i64) returns (bank: Bank)
    requires now + 15 * 24 * 3600 <= I64_MAX
    ensures bank.Valid()
    ensures bank.supply == Some(SupplyAccount(5_000_250_000))
    ensures Alice in bank.users && Alice in bank.loans
    ensures bank.users[Alice] == UserAccount(
              0,
              [Transaction(TransactionType.Deposit, 10_000_000, depositedAt),
               Transaction(TransactionType.Withdraw, 10_000_000, withdrawnAt)],
              false)
    ensures bank.loans[Alice]
            == LoanAccount(Alice, 5_000_000, 5, now, now + 15 * 24 * 3600, true)
  {
    bank := TestLedgerCases(depositedAt, withdrawnAt);
    var r := bank.InitializeLoanAccount(Alice);
    r := bank.RequestLoan(Alice, 5_000_000, 5, 15 * 24 * 3600, now);
    assert r == Ok;
    assert bank.supply == Some(SupplyAccount(4_995_000_000));
    assert TotalRepaymentDue(5_000_000, 5) == Some(5_250_000);
    r := bank.RepayLoan(Alice, 5_250_000);
    assert r == Ok;
  }

  /** The test's first three cases: after the reserve is set, the deposit
      and the withdrawal of the same amount both succeed and cancel out in
      the counters, while the log keeps both. */
  method TestLedgerCases(depositedAt: i64, withdrawnAt: i64) returns (bank: Bank)
    ensures fresh(bank) && bank.Valid()
    ensures bank.supply == Some(SupplyAccount(5_000_000_000))
    ensures Alice in bank.users
    ensures bank.users[Alice] == UserAccount(
              0,
              [Transaction(TransactionType.Deposit, 10_000_000, depositedAt),
               Transaction(TransactionType.Withdraw, 10_000_000, withdrawnAt)],
              false)
    ensures bank.loans == map[]
  {
    bank := new Bank(UserAccountHistoryCapacity);
    var r := bank.InitializeSupply(Alice, 5_000_000_000);
    r := bank.Deposit(Alice, 10_000_000, depositedAt);
    assert r == Ok;
    r := bank.Withdraw(Alice, 10_000_000, withdrawnAt);
    assert r == Ok;
  }

  /** The reserve the home page seeds (100 SOL), a deposit of 0.01 SOL, then
      an attempt to withdraw 0.015 SOL, which the balance check refuses
      without touching either counter. */
  method DepositThenOverdraw(now: i64) returns (bank: Bank)
    ensures bank.Valid()
    ensures bank.supply == Some(SupplyAccount(100_010_000_000))
    ensures Alice in bank.users
    ensures bank.users[Alice].balance == 10_000_000
    ensures bank.users[Alice].transactionHistory
            == [Transaction(TransactionType.Deposit, 10_000_000, now)]
  {
    bank := new Bank(UserAccountHistoryCapacity);
    var r := bank.InitializeSupply(Alice, 100_000_000_000);
    r := bank.Deposit(Alice, 10_000_000, now);
    assert r == Ok;
    r := bank.Withdraw(Alice, 15_000_000, now);
    assert r == Err(Program(InsufficientFunds));
  }

  /** A loan of 5_000_000 at 5% for fifteen days: the reserve pays it out, the
      dashboard counts one active loan; 5_000_000 is refused as a repayment,
      5_250_000 is accepted, the dashboard counts none, and a second
      repayment is refused as already repaid. */
  method LoanCycle(now: i64) returns (bank: Bank)
    requires now + 15 * 24 * 3600 <= I64_MAX
    ensures bank.Valid()
    ensures bank.supply == Some(SupplyAccount(100_000_250_000))
    ensures Alice in bank.loans && Alice in bank.users
    ensures bank.loans[Alice]
            == LoanAccount(Alice, 5_000_000, 5, now, now + 15 * 24 * 3600, true)
    ensures Dashboard.TotalActiveLoans(bank.users[Alice]) == 0
  {
    bank := new Bank(UserAccountHistoryCapacity);
    var r := bank.InitializeSupply(Alice, 100_000_000_000);
    r := bank.InitializeLoanAccount(Alice);
    r := bank.RequestLoan(Alice, 5_000_000, 5, 15 * 24 * 3600, now);
    assert r == Ok;
    assert bank.supply == Some(SupplyAccount(99_995_000_000));
    assert Dashboard.TotalActiveLoans(bank.users[Alice]) == 1;
    assert TotalRepaymentDue(5_000_000, 5) == Some(5_250_000);
    r := bank.RepayLoan(Alice, 5_000_000);
    assert r == Err(Program(InvalidRepaymentAmount));
    r := bank.RepayLoan(Alice, 5_250_000);
    assert r == Ok;
    r := bank.RepayLoan(Alice, 5_250_000);
    assert r == Err(Program(LoanAlreadyRepaid));
  }

  /** A request while a loan is outstanding is not refused: it replaces the
      outstanding loan and pays out again. */
  method RequestWhileActive(now: i64) returns (bank: Bank)
    requires now + 3600 <= I64_MAX
    ensures bank.Valid()
    ensures bank.supply == Some(SupplyAccount(99_997_000_000))
    ensures Alice in bank.loans
    ensures bank.loans[Alice] == LoanAccount(Alice, 2_000_000, 7, now, now + 3600, false)
  {
    bank := new Bank(UserAccountHistoryCapacity);
    var r := bank.InitializeSupply(Alice, 100_000_000_000);
    r := bank.InitializeLoanAccount(Alice);
    r := bank.RequestLoan(Alice, 1_000_000, 5, 3600, now);
    assert r == Ok;
    r := bank.RequestLoan(Alice, 2_000_000, 7, 3600, now);
    assert r == Ok;
  }

  /** Re-initialising the loan account during a loan erases the debt: the
      record reads as an idle, repaid loan of 0, the disbursed principal is
      not returned to the reserve, repayment is refused, and the user account
      still carries the loan flag, so the dashboard keeps counting an active
      loan. */
  method ReinitializeDuringLoan(now: i64) returns (bank: Bank, repay: Status)
    requires now + 3600 <= I64_MAX
    ensures bank.Valid()
    ensures Alice in bank.loans && Alice in bank.users
    ensures bank.loans[Alice] == LoanAccount(Alice, 0, 0, 0, now + 3600, true)
    ensures bank.supply == Some(SupplyAccount(99_999_000_000))
    ensures Dashboard.TotalActiveLoans(bank.users[Alice]) == 1
    ensures repay == Err(Program(LoanAlreadyRepaid))
  {
    bank := new Bank(UserAccountHistoryCapacity);
    var r := bank.InitializeSupply(Alice, 100_000_000_000);
    r := bank.InitializeLoanAccount(Alice);
    r := bank.RequestLoan(Alice, 1_000_000, 5, 3600, now);
    assert r == Ok;
    r := bank.InitializeLoanAccount(Alice);
    repay := bank.RepayLoan(Alice, 1_050_000);
  }

  /** On any state, a successful request makes the dashboard count one active
      loan and a successful repayment right after makes it count none. The
      repayment is attempted only when the request succeeded. */
  method RequestThenRepay(bank: Bank, caller: Pubkey, amount: u64, interestRate: u64,
                          loanTerm: i64, now: i64, repaymentAmount: u64)
    returns (requested: Status, repaid: Option<Status>)
    requires bank.Valid()
    modifies bank
    ensures bank.Valid()
    ensures requested.Ok? ==> caller in bank.users && caller in bank.loans
    ensures requested.Err? <==> repaid.None?
    ensures repaid == Some(Ok) ==>
              Dashboard.TotalActiveLoans(bank.users[caller]) == 0 && bank.loans[caller].repaid
    ensures repaid.Some? && repaid.value.Err? ==>
              Dashboard.TotalActiveLoans(bank.users[caller]) == 1 && !bank.loans[caller].repaid
  {
    requested := bank.RequestLoan(caller, amount, interestRate, loanTerm, now);
    if requested.Err? {
      return requested, None;
    }
    assert Dashboard.TotalActiveLoans(bank.users[caller]) == 1;
    var status := bank.RepayLoan(caller, repaymentAmount);
    repaid := Some(status);
  }
}
