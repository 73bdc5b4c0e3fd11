/** The dashboard totals computed after fetching the reserve and the user
    account: the number of log entries, the deposit and withdrawal tallies,
    and the number of active loans. */
module Dashboard {
  import opened Wrappers
  import opened Bank
  import opened AnchorClient
  import TransactionHistory

  /** The tests inside the `forEach` callback: an entry counts as a deposit
      (a withdrawal) when its type key, upper-cased, reads DEPOSIT (WITHDRAW);
      an entry without a type key counts as neither. */
  predicate IsDepositEntry(e: Entry) {
    e.typeKey.Some? && Upper(e.typeKey.value) == "DEPOSIT"
  }

  predicate IsWithdrawEntry(e: Entry) {
    e.typeKey.Some? && Upper(e.typeKey.value) == "WITHDRAW"
  }

  function Deposits(entries: seq<Entry>): nat {
    if entries == [] then 0
    else (if IsDepositEntry(entries[0]) then 1 else 0) + Deposits(entries[1..])
  }

  function Withdrawals(entries: seq<Entry>): nat {
    if entries == [] then 0
    else (if IsWithdrawEntry(entries[0]) then 1 else 0) + Withdrawals(entries[1..])
  }

  /** The `forEach` loop over `allTransactions`, incrementing
      `totalDeposits` and `totalWithdrawals`. */
  method TallyHistory(allTransactions: seq<Entry>) returns (totalDeposits: nat, totalWithdrawals: nat)
    ensures totalDeposits == Deposits(allTransactions)
    ensures totalWithdrawals == Withdrawals(allTransactions)
  {
    totalDeposits, totalWithdrawals := 0, 0;
    for i := 0 to |allTransactions|
      invariant totalDeposits + Deposits(allTransactions[i..]) == Deposits(allTransactions)
      invariant totalWithdrawals + Withdrawals(allTransactions[i..]) == Withdrawals(allTransactions)
    {
      var tx := allTransactions[i];
      assert allTransactions[i..][1..] == allTransactions[i + 1..];
      if tx.typeKey.Some? {
        var txnTypeKey := Upper(tx.typeKey.value);
        if txnTypeKey == "DEPOSIT" {
          totalDeposits := totalDeposits + 1;
        } else if txnTypeKey == "WITHDRAW" {
          totalWithdrawals := totalWithdrawals + 1;
        }
      }
    }
  }

  /** The two tallies never exceed the number of entries, and they add up to
      it exactly when every entry is a recognised deposit or withdrawal. */
  lemma {:induction false} TallyBound(entries: seq<Entry>)
    ensures Deposits(entries) + Withdrawals(entries) <= |entries|
    ensures Deposits(entries) + Withdrawals(entries) == |entries|
            <==> forall i :: 0 <= i < |entries| ==> IsDepositEntry(entries[i]) || IsWithdrawEntry(entries[i])
  {
    if entries != [] {
      TallyBound(entries[1..]);
      assert "DEPOSIT" != "WITHDRAW";
      assert forall i :: 1 <= i < |entries| ==> entries[i] == entries[1..][i - 1];
    }
  }

  /** On the log as the program writes it, the tallies are the numbers of
      Deposit and Withdraw entries. */
  lemma {:induction false} TallyOfDecodedHistory(history: seq<Transaction>)
    ensures Deposits(DecodedHistory(history)) == TransactionHistory.CountOfType(history, TransactionType.Deposit)
    ensures Withdrawals(DecodedHistory(history)) == TransactionHistory.CountOfType(history, TransactionType.Withdraw)
  {
    VariantLabels();
    if history != [] {
      TallyOfDecodedHistory(history[1..]);
      assert DecodedHistory(history)[1..] == DecodedHistory(history[1..]);
    }
  }

  /** `totalActiveLoans`: one when the user account is flagged as holding a
      loan, zero otherwise. */
  function TotalActiveLoans(user: UserAccount): nat {
    if user.hasLoanAccount then 1 else 0
  }

  datatype Totals = Totals(
    totalTxns: nat,
    totalDeposits: nat,
    totalWithdraws: nat,
    totalActiveLoans: nat)

  /** The figures the dashboard shows for a fetched user account. */
  method Summarize(userData: UserAccount) returns (totals: Totals)
    ensures totals.totalTxns == |userData.transactionHistory|
    ensures totals.totalDeposits == TransactionHistory.CountOfType(userData.transactionHistory, TransactionType.Deposit)
    ensures totals.totalWithdraws == TransactionHistory.CountOfType(userData.transactionHistory, TransactionType.Withdraw)
    ensures totals.totalDeposits + totals.totalWithdraws == totals.totalTxns
    ensures totals.totalActiveLoans <= 1
    ensures totals.totalActiveLoans == 1 <==> userData.hasLoanAccount
  {
    var allTransactions := DecodedHistory(userData.transactionHistory);
    var totalDeposits, totalWithdrawals := TallyHistory(allTransactions);
    TallyOfDecodedHistory(userData.transactionHistory);
    VariantLabels();
    TallyBound(allTransactions);
    assert forall i :: 0 <= i < |allTransactions| ==>
             IsDepositEntry(allTransactions[i]) || IsWithdrawEntry(allTransactions[i]);
    totals := Totals(|allTransactions|, totalDeposits, totalWithdrawals, TotalActiveLoans(userData));
  }
}
