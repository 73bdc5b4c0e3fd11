/** The on-chain bank program: a singleton reserve ("supply") account, one user
    account per wallet with an append-only transaction log, and one loan
    account per wallet, mutated by six instructions. Each instruction either
    completes or fails and leaves every account as it was (a failed
    instruction is rolled back by the runtime). */
module Bank {
  import opened Wrappers

  // ---------------------------------------------------------------------------
  // Fixed-width integers of the program
  // ---------------------------------------------------------------------------

  const U64_MAX: int := 0xFFFF_FFFF_FFFF_FFFF
  const I64_MIN: int := -0x8000_0000_0000_0000
  const I64_MAX: int := 0x7FFF_FFFF_FFFF_FFFF

  type u64 = x: int | 0 <= x <= U64_MAX
  type i64 = x: int | I64_MIN <= x <= I64_MAX
  type byte = b: int | 0 <= b < 256

  /** A wallet identity (an ed25519 public key). The program-derived addresses
      of a wallet's user and loan accounts are functions of it, so the
      accounts are keyed by it directly. */
  type Pubkey = k: seq<byte> | |k| == 32 witness seq(32, i => 0)

  // ---------------------------------------------------------------------------
  // Account records
  // ---------------------------------------------------------------------------

  datatype TransactionType = Deposit | Withdraw

  datatype Transaction = Transaction(txnType: TransactionType, amount: u64, timestamp: i64)

  datatype SupplyAccount = SupplyAccount(totalBalance: u64)

  datatype UserAccount = UserAccount(
    balance: u64,
    transactionHistory: seq<Transaction>,
    hasLoanAccount: bool)

  datatype LoanAccount = LoanAccount(
    borrower: Pubkey,
    loanAmount: u64,
    interestRate: u64,
    startTime: i64,
    endTime: i64,
    repaid: bool)

  /** How many transactions the user account's allocation holds once Borsh
      encodes it: 1620 bytes are allocated (8 + 8 + 4 + 100 * 16), and the
      encoding takes 8 (discriminator) + 8 (balance) + 4 (length) + 1 (flag)
      plus 17 per transaction (1-byte tag, amount, timestamp), so at most 94
      entries fit, not the 100 the allocation formula suggests. */
  const UserAccountHistoryCapacity: nat := (1620 - 21) / 17

  /** A user account as it reads right after allocation: all bytes zero. */
  const FreshUser: UserAccount := UserAccount(0, [], false)

  // ---------------------------------------------------------------------------
  // Errors
  // ---------------------------------------------------------------------------

  /** The program's own error codes. ActiveLoanExists is declared but no
      instruction raises it. */
  datatype ErrorCode =
    | InsufficientFunds
    | ActiveLoanExists
    | InvalidLoanAmount
    | LoanAlreadyRepaid
    | InvalidRepaymentAmount

  datatype Error =
    | Program(code: ErrorCode)   // a failed `require!`
    | AccountNotInitialized      // Anchor's account deserialization found no account
    | ArithmeticOverflow         // the panic of a u64/i64 `+`, `-` or `*` leaving its
                                 // range, with Rust's overflow checks on
    | AccountDidNotSerialize     // the user account outgrew its fixed allocation

  datatype Status = Ok | Err(error: Error)

  // ---------------------------------------------------------------------------
  // Interest
  // ---------------------------------------------------------------------------

  /** The amount due on a loan: principal plus `principal * rate / 100` in u64
      arithmetic, so the interest is rounded down and either step can
      overflow. */
  function TotalRepaymentDue(loanAmount: u64, interestRate: u64): (due: Option<u64>)
    ensures due.None? <==>
              loanAmount * interestRate > U64_MAX
              || loanAmount + loanAmount * interestRate / 100 > U64_MAX
    ensures due.Some? ==> loanAmount <= due.value
    ensures due.Some? ==>
              100 * due.value <= loanAmount * (100 + interestRate) < 100 * due.value + 100
  {
    var interestTimes100 := loanAmount * interestRate;
    if interestTimes100 > U64_MAX then None
    else
      var interest := interestTimes100 / 100;
      var total := loanAmount + interest;
      if total > U64_MAX then None
      else
        Scaled(loanAmount, interestRate);
        assert 100 * interest <= interestTimes100 < 100 * interest + 100;
        Some(total)
  }

  /** Helper: the principal times `100 + rate`, split into its two parts. */
  lemma Scaled(loanAmount: nat, interestRate: nat)
    ensures loanAmount * (100 + interestRate) == 100 * loanAmount + loanAmount * interestRate
  {
  }

  // ---------------------------------------------------------------------------
  // The program state and its instructions
  // ---------------------------------------------------------------------------

  class Bank {
    /** The reserve account; None until `InitializeSupply` creates it. */
    var supply: Option<SupplyAccount>
    /** The user accounts, by owning wallet. */
    var users: map<Pubkey, UserAccount>
    /** The loan accounts, by borrowing wallet. */
    var loans: map<Pubkey, LoanAccount>
    /** How many transactions fit in a user account's fixed allocation. */
    const historyCapacity: nat

    /** What every reachable state satisfies: no log exceeds the allocation,
        every loan account belongs to the wallet it is kept under, and an
        unrepaid loan is flagged on its owner's user account. */
    ghost predicate Valid()
      reads this
    {
      && (forall k :: k in users ==> |users[k].transactionHistory| <= historyCapacity)
      && (forall k :: k in loans ==> loans[k].borrower == k)
      && (forall k :: k in loans && !loans[k].repaid ==> k in users && users[k].hasLoanAccount)
    }

    /** A ledger in which no account has been created yet. */
    constructor (historyCapacity: nat)
      ensures Valid()
      ensures supply == None && users == map[] && loans == map[]
      ensures this.historyCapacity == historyCapacity
    {
      this.historyCapacity := historyCapacity;
      supply := None;
      users := map[];
      loans := map[];
    }

    /** `initialize_supply`: creates the reserve if needed and sets its total
        to `amount`, overwriting any earlier total; creates the caller's user
        account, zeroed, if it does not exist and leaves it alone if it does. */
    method InitializeSupply(caller: Pubkey, amount: u64) returns (r: Status)
      requires Valid()
      modifies this
      ensures Valid()
      ensures r == Ok
      ensures supply == Some(SupplyAccount(amount))
      ensures caller in users
      ensures users == old(users)[caller := users[caller]]
      ensures users[caller] == if caller in old(users) then old(users)[caller] else FreshUser
      ensures loans == old(loans)
    {
      supply := Some(SupplyAccount(amount));
      if caller !in users {
        users := users[caller := FreshUser];
      }
      r := Ok;
    }

    /** `deposit`: credits `amount` to both the reserve and the caller's
        balance and logs a Deposit entry stamped `now`. Zero is accepted. */
    method Deposit(caller: Pubkey, amount: u64, now: i64) returns (r: Status)
      requires Valid()
      modifies this
      ensures Valid()
      ensures loans == old(loans)
      ensures old(supply).None? || caller !in old(users) ==> r == Err(AccountNotInitialized)
      ensures old(supply).Some? && caller in old(users) ==>
                var total, user := old(supply).value.totalBalance, old(users)[caller];
                r == if total + amount > U64_MAX || user.balance + amount > U64_MAX then Err(ArithmeticOverflow)
                     else if |user.transactionHistory| >= historyCapacity then Err(AccountDidNotSerialize)
                     else Ok
      ensures r.Err? ==> supply == old(supply) && users == old(users)
      ensures r.Ok? ==>
                && supply == Some(SupplyAccount(old(supply).value.totalBalance + amount))
                && caller in users
                && users == old(users)[caller := users[caller]]
                && users[caller].balance == old(users)[caller].balance + amount
                && users[caller].transactionHistory
                   == old(users)[caller].transactionHistory + [Transaction(TransactionType.Deposit, amount, now)]
                && users[caller].hasLoanAccount == old(users)[caller].hasLoanAccount
      ensures r.Ok? ==>
                supply.value.totalBalance - users[caller].balance
                == old(supply).value.totalBalance - old(users)[caller].balance
    {
      if supply.None? || caller !in users {
        return Err(AccountNotInitialized);
      }
      var total, user := supply.value.totalBalance, users[caller];
      if total + amount > U64_MAX || user.balance + amount > U64_MAX {
        return Err(ArithmeticOverflow);
      }
      if |user.transactionHistory| >= historyCapacity {
        return Err(AccountDidNotSerialize);
      }
      supply := Some(SupplyAccount(total + amount));
      users := users[caller := user.(
        balance := user.balance + amount,
        transactionHistory := user.transactionHistory + [Transaction(TransactionType.Deposit, amount, now)])];
      r := Ok;
    }

    /** `withdraw`: checks only the caller's balance; the reserve is then
        debited without a guard of its own, so a reserve below `amount`
        fails as an arithmetic underflow rather than as InsufficientFunds. */
    method Withdraw(caller: Pubkey, amount: u64, now: i64) returns (r: Status)
      requires Valid()
      modifies this
      ensures Valid()
      ensures loans == old(loans)
      ensures old(supply).None? || caller !in old(users) ==> r == Err(AccountNotInitialized)
      ensures old(supply).Some? && caller in old(users) ==>
                var total, user := old(supply).value.totalBalance, old(users)[caller];
                r == if user.balance < amount then Err(Program(InsufficientFunds))
                     else if total < amount then Err(ArithmeticOverflow)
                     else if |user.transactionHistory| >= historyCapacity then Err(AccountDidNotSerialize)
                     else Ok
      ensures r.Err? ==> supply == old(supply) && users == old(users)
      ensures r.Ok? ==>
                && supply == Some(SupplyAccount(old(supply).value.totalBalance - amount))
                && caller in users
                && users == old(users)[caller := users[caller]]
                && users[caller].balance == old(users)[caller].balance - amount
                && users[caller].transactionHistory
                   == old(users)[caller].transactionHistory + [Transaction(TransactionType.Withdraw, amount, now)]
                && users[caller].hasLoanAccount == old(users)[caller].hasLoanAccount
      ensures r.Ok? ==>
                supply.value.totalBalance - users[caller].balance
                == old(supply).value.totalBalance - old(users)[caller].balance
    {
      if supply.None? || caller !in users {
        return Err(AccountNotInitialized);
      }
      var total, user := supply.value.totalBalance, users[caller];
      if user.balance < amount {
        return Err(Program(InsufficientFunds));
      }
      if total < amount {
        return Err(ArithmeticOverflow);
      }
      if |user.transactionHistory| >= historyCapacity {
        return Err(AccountDidNotSerialize);
      }
      supply := Some(SupplyAccount(total - amount));
      users := users[caller := user.(
        balance := user.balance - amount,
        transactionHistory := user.transactionHistory + [Transaction(TransactionType.Withdraw, amount, now)])];
      r := Ok;
    }

    /** `initialize_loan_account`: creates the caller's loan account if needed
        and resets it to an idle record owned by the caller. The end time is
        not reset (it reads 0 on a fresh account), and the user account,
        `hasLoanAccount` included, is not touched; calling it during an
        active loan therefore marks that loan repaid. */
    method InitializeLoanAccount(caller: Pubkey) returns (r: Status)
      requires Valid()
      modifies this
      ensures Valid()
      ensures r == Ok
      ensures supply == old(supply) && users == old(users)
      ensures caller in loans
      ensures loans == old(loans)[caller := loans[caller]]
      ensures loans[caller] == LoanAccount(
                caller, 0, 0, 0,
                if caller in old(loans) then old(loans)[caller].endTime else 0,
                true)
    {
      var endTime := if caller in loans then loans[caller].endTime else 0;
      loans := loans[caller := LoanAccount(caller, 0, 0, 0, endTime, true)];
      r := Ok;
    }

    /** `request_loan`: disburses `amount` from the reserve and records the
        loan's terms. It never looks at `repaid`: a request while a loan is
        active succeeds on the same conditions and overwrites that loan. The
        caller's balance and log are not touched (the funds go straight to
        the wallet). */
    method RequestLoan(caller: Pubkey, amount: u64, interestRate: u64, loanTerm: i64, now: i64)
      returns (r: Status)
      requires Valid()
      modifies this
      ensures Valid()
      ensures old(supply).None? || caller !in old(loans) || caller !in old(users) ==>
                r == Err(AccountNotInitialized)
      ensures old(supply).Some? && caller in old(loans) && caller in old(users) ==>
                r == if amount == 0 then Err(Program(InvalidLoanAmount))
                     else if old(supply).value.totalBalance < amount then Err(Program(InsufficientFunds))
                     else if now + loanTerm < I64_MIN || now + loanTerm > I64_MAX then Err(ArithmeticOverflow)
                     else Ok
      ensures r.Err? ==> supply == old(supply) && users == old(users) && loans == old(loans)
      ensures r.Ok? ==>
                && supply == Some(SupplyAccount(old(supply).value.totalBalance - amount))
                && caller in loans && caller in users
                && loans == old(loans)[caller := loans[caller]]
                && loans[caller] == LoanAccount(
                     old(loans)[caller].borrower, amount, interestRate, now, now + loanTerm, false)
                && users == old(users)[caller := users[caller]]
                && users[caller] == old(users)[caller].(hasLoanAccount := true)
    {
      if supply.None? || caller !in loans || caller !in users {
        return Err(AccountNotInitialized);
      }
      if amount == 0 {
        return Err(Program(InvalidLoanAmount));
      }
      var total := supply.value.totalBalance;
      if total < amount {
        return Err(Program(InsufficientFunds));
      }
      if now + loanTerm < I64_MIN || now + loanTerm > I64_MAX {
        return Err(ArithmeticOverflow);
      }
      var loan := loans[caller];
      loans := loans[caller := loan.(
        loanAmount := amount, interestRate := interestRate,
        startTime := now, endTime := now + loanTerm, repaid := false)];
      supply := Some(SupplyAccount(total - amount));
      users := users[caller := users[caller].(hasLoanAccount := true)];
      r := Ok;
    }

    /** `repay_loan`: accepts any repayment of at least the amount due and
        keeps all of it in the reserve (no change is given back). */
    method RepayLoan(caller: Pubkey, repaymentAmount: u64) returns (r: Status)
      requires Valid()
      modifies this
      ensures Valid()
      ensures old(supply).None? || caller !in old(loans) || caller !in old(users) ==>
                r == Err(AccountNotInitialized)
      ensures old(supply).Some? && caller in old(loans) && caller in old(users) ==>
                var loan := old(loans)[caller];
                var due := TotalRepaymentDue(loan.loanAmount, loan.interestRate);
                r == if repaymentAmount == 0 then Err(Program(InvalidRepaymentAmount))
                     else if loan.repaid then Err(Program(LoanAlreadyRepaid))
                     else if due.None? then Err(ArithmeticOverflow)
                     else if repaymentAmount < due.value then Err(Program(InvalidRepaymentAmount))
                     else if old(supply).value.totalBalance + repaymentAmount > U64_MAX then Err(ArithmeticOverflow)
                     else Ok
      ensures r.Err? ==> supply == old(supply) && users == old(users) && loans == old(loans)
      ensures r.Ok? ==>
                && supply == Some(SupplyAccount(old(supply).value.totalBalance + repaymentAmount))
                && caller in loans && caller in users
                && loans == old(loans)[caller := old(loans)[caller].(repaid := true)]
                && users == old(users)[caller := old(users)[caller].(hasLoanAccount := false)]
    {
      if supply.None? || caller !in loans || caller !in users {
        return Err(AccountNotInitialized);
      }
      if repaymentAmount == 0 {
        return Err(Program(InvalidRepaymentAmount));
      }
      var loan := loans[caller];
      if loan.repaid {
        return Err(Program(LoanAlreadyRepaid));
      }
      var due := TotalRepaymentDue(loan.loanAmount, loan.interestRate);
      if due.None? {
        return Err(ArithmeticOverflow);
      }
      if repaymentAmount < due.value {
        return Err(Program(InvalidRepaymentAmount));
      }
      var total := supply.value.totalBalance;
      if total + repaymentAmount > U64_MAX {
        return Err(ArithmeticOverflow);
      }
      loans := loans[caller := loan.(repaid := true)];
      users := users[caller := users[caller].(hasLoanAccount := false)];
      supply := Some(SupplyAccount(total + repaymentAmount));
      r := Ok;
    }
  }
}
