# Solana bank: a verified model of the ledger program and its history views

This project models the on-chain bank program and the two read-side
computations its web client performs on the transaction log.

- **Bank** (`bank.dfy`) models the program. There is one reserve ("supply")
  account holding `total_balance`. Each wallet has a user account holding
  `balance`, an append-only `transaction_history` and a `has_loan_account`
  flag. Each wallet also has a loan account holding amount, rate, start and
  end times, the borrower and `repaid`. The class `Bank.Bank` holds these
  accounts as an optional supply record plus two maps keyed by wallet
  identity. It has one method per instruction: `InitializeSupply`, `Deposit`,
  `Withdraw`, `InitializeLoanAccount`, `RequestLoan` and `RepayLoan`.
  - Each method returns `Ok` or the error the program raises, and states the
    whole new state.
  - On an error nothing changes: a failed instruction is rolled back.
  - u64 and i64 arithmetic is taken to be checked, that is, built with
    Rust's `overflow-checks` on (see "Left out"). An overflow or underflow of
    `+`, `-` or `*` then panics, and the instruction fails. `ArithmeticOverflow`
    is the model's name for that panic; it is never a wrap-around.
  - An account that has not been created is the error
    `AccountNotInitialized`. Anchor's account deserialization raises it
    before the instruction body runs.
  - The user account has a fixed allocation, modelled as an abstract
    `historyCapacity`. Appending to a full log is the error
    `AccountDidNotSerialize`.
  - `Valid()` is preserved by every instruction. It says three things: no
    log exceeds the capacity; every loan account records its owner as the
    borrower; an unrepaid loan implies the owner's user account exists with
    `hasLoanAccount` set.
  - The clock is a `now` parameter.
- **AnchorClient** (`anchor_client.dfy`): how the client sees a log entry.
  A decoded enum is read by its variant key (`deposit`, `withdraw`) and
  compared after `toUpperCase`.
- **TransactionHistory** (`transaction_history.dfy`): the history modal. It
  has the type filter, the ten-row page window, the page count and the row
  serial numbers.
- **Dashboard** (`dashboard.dfy`): the totals the home page computes from a
  fetched user account. These are the deposit/withdrawal tally loop, the
  number of entries and the active-loan count.
- **Scenarios** (`scenarios.dfy`): client methods that drive `Bank`. One
  follows the integration test file's cases with its values
  (`IntegrationTestRun`); the file keeps all of them but the loan request
  commented out. The others are runs of this model's own that exercise the
  instructions' guards and a loan's life, with the home page's 100 SOL
  reserve. They show what the dashboard reads at each point. Every run
  allocates user accounts with `UserAccountHistoryCapacity`, the 94 log
  entries that fit the program's 1620-byte allocation once Borsh encodes
  them (21 fixed bytes plus 17 per entry).

What the program does, where a natural reading of its purpose would expect
otherwise, is modelled as written:

- `deposit` and `withdraw` accept an amount of zero.
- `withdraw` checks only the user's balance. A reserve smaller than the
  amount makes the unguarded `total_balance -= amount` underflow. That is an
  arithmetic failure, not `InsufficientFunds`.
- `request_loan` never reads `repaid`. A request during an active loan
  succeeds on the same conditions and overwrites the loan. The error code
  `ActiveLoanExists` is declared but never raised. The reserve check raises
  `InsufficientFunds`.
- `repay_loan` keeps the whole repayment, including any excess. The interest
  `loan * rate / 100` is rounded down. Its multiplication can overflow before
  the amount is compared.
- `initialize_supply` and `initialize_loan_account` may be called again.
  They overwrite the reserve total, or reset the loan account to an idle
  record (`repaid = true`, end time kept).
  - Calling `initialize_loan_account` during a loan erases the debt. The
    loan account then reads as a repaid loan of 0, the disbursed lamports
    stay with the borrower, the reserve never gets the principal back, and
    any repayment is refused as already repaid.
  - It does not touch `has_loan_account` either, so the dashboard keeps
    counting an active loan that can no longer be repaid. Both are stated by
    `Scenarios.ReinitializeDuringLoan`. This is why `Valid()` relates an
    unrepaid loan to the flag in one direction only.
- In `initialize_supply`, the branch that zeroes a new user account checks
  whether the account data is empty. Once the account has been allocated,
  the data is never empty. What can be observed is still the same: a new
  user account reads as zero (balance 0, empty log, no loan flag), and an
  existing one is left unchanged. That is how it is modelled.

## Model

| member | source | states |
|---|---|---|
| Bank.TotalRepaymentDue | SmartContract-SolanaBank/programs/bank/src/lib.rs:187-188 | fails exactly when `loan*rate` or `loan + loan*rate/100` leaves u64; otherwise the due is at least the principal and is `loan*(100+rate)/100` rounded down (the bracketing `100*due <= loan*(100+rate) < 100*due + 100`) |
| Bank.Bank.InitializeSupply | SmartContract-SolanaBank/programs/bank/src/lib.rs:9-22 | always succeeds; the reserve total becomes exactly `amount` whatever it was; the caller's user account exists afterwards, zeroed if it was new and unchanged if it existed; no other account changes |
| Bank.Bank.Deposit | SmartContract-SolanaBank/programs/bank/src/lib.rs:24-78 | missing account, then overflow of either counter, then a full log, in that order, each fail with nothing changed; on success reserve and balance both rise by `amount`, the log is the old log plus one Deposit entry with `amount` and `now`, `reserve - balance` is preserved, other users and all loans are unchanged |
| Bank.Bank.Withdraw | SmartContract-SolanaBank/programs/bank/src/lib.rs:80-121 | missing account, then `balance < amount` as InsufficientFunds, then reserve below `amount` as an underflow, then a full log; each fails with nothing changed; on success both counters drop by `amount`, one Withdraw entry is appended, `reserve - balance` is preserved |
| Bank.Bank.InitializeLoanAccount | SmartContract-SolanaBank/programs/bank/src/lib.rs:123-137 | always succeeds; the caller's loan account becomes borrower = caller, amount, rate and start 0, repaid true, end time as before (0 if new); reserve and user accounts unchanged |
| Bank.Bank.RequestLoan | SmartContract-SolanaBank/programs/bank/src/lib.rs:139-179 | missing account, then amount 0 (InvalidLoanAmount), then reserve below amount (InsufficientFunds), then `now + term` outside i64; each fails with nothing changed; success does not depend on `repaid`; it sets amount, rate, start `now`, end `now + term`, repaid false, lowers the reserve by `amount`, sets the loan flag and leaves balance and log unchanged |
| Bank.Bank.RepayLoan | SmartContract-SolanaBank/programs/bank/src/lib.rs:181-225 | missing account, then repayment 0 (InvalidRepaymentAmount), then already repaid (LoanAlreadyRepaid), then overflow of the due, then repayment below the due (InvalidRepaymentAmount), then reserve overflow; each fails with nothing changed; on success repaid becomes true, the loan flag false, and the reserve gains the whole repayment |
| AnchorClient.VariantLabels | src/app/components/TransactionHistory.tsx:57-58 | the variant keys the client reads off a decoded type (`VariantKey`, from `Object.keys(tx.txnType)[0]` at TransactionHistory.tsx:57 and page.tsx:91), upper-cased, are DEPOSIT and WITHDRAW, and the menu labels "Deposit" and "Withdraw" upper-case to the same words |
| TransactionHistory.Filtered | src/app/components/TransactionHistory.tsx:55-59 | the filtered list is a subsequence of the log (order kept) and every entry in it passes the filter callback `Keep` (TransactionHistory.tsx:55-59: "All" keeps everything, otherwise the upper-cased variant key must equal the upper-cased filter) |
| TransactionHistory.FilterAllIsIdentity | src/app/components/TransactionHistory.tsx:55-56 | with "All" the filtered list is the log itself |
| TransactionHistory.FilterByTypeKeepsThatType | src/app/components/TransactionHistory.tsx:55-59 | a filter naming a type in any letter case keeps only entries of that type, as many as the log holds, in log order, so it keeps exactly those entries |
| TransactionHistory.FilterMenuOptions | src/app/components/TransactionHistory.tsx:93-101 | the menu options "Deposit" and "Withdraw" select exactly the deposits and exactly the withdrawals |
| TransactionHistory.Page | src/app/components/TransactionHistory.tsx:65-69 | page `p` is the window starting at `10p`: at most 10 entries, `min(10, n - 10p)` of them, none once `10p >= n`, entry `i` being filtered entry `10p + i` |
| TransactionHistory.PageCount | src/app/components/TransactionHistory.tsx:71-73 | the page count is the least `c` with `10c >= n`, i.e. `ceil(n/10)` |
| TransactionHistory.AllPagesIsPrefix | src/app/components/TransactionHistory.tsx:65-69 | reading pages `0..k-1` in order yields the first `min(10k, n)` filtered entries |
| TransactionHistory.PagesCoverList | src/app/components/TransactionHistory.tsx:65-73 | every page below the page count is non-empty, and pages `0..pageCount-1` concatenated give back the filtered list |
| TransactionHistory.PageBeyondEndIsEmpty | src/app/components/TransactionHistory.tsx:65-73 | a page at or past the page count is empty |
| TransactionHistory.SerialIsPosition | src/app/components/TransactionHistory.tsx:137 | the serial `Serial(p, i)` = `10p + i + 1` (TransactionHistory.tsx:137) shown for row `i` of page `p` lies in `1..n` and is that row's one-based position in the filtered list |
| TransactionHistory.AllSerialsCount | src/app/components/TransactionHistory.tsx:133-138 | the serial columns of pages `0..k-1` read `1, 2, ..., min(10k, n)` |
| TransactionHistory.SerialsAreOneToN | src/app/components/TransactionHistory.tsx:137 | across all pages the serials are exactly `1..n` in order: no gaps, no repeats |
| Dashboard.TallyHistory | src/app/page.tsx:86-98 | the loop's counters end equal to the number of entries recognised as deposits and as withdrawals; entries without a type key count in neither |
| Dashboard.TallyBound | src/app/page.tsx:88-107 | deposits plus withdrawals never exceed the number of entries, and equal it exactly when every entry is a recognised deposit or withdrawal |
| Dashboard.TallyOfDecodedHistory | src/app/page.tsx:86-98 | on the log the program writes, seen through `Decoded`/`DecodedHistory` (a decoded entry always has its variant key, page.tsx:89-91), the tallies are the numbers of Deposit and of Withdraw transactions |
| Dashboard.Summarize | src/app/page.tsx:85-112 | the total equals the log length, the tallies equal the per-type counts and add up to the total, and the active-loan count, `TotalActiveLoans` (page.tsx:99), is 1 when the loan flag is set and 0 otherwise |
| Scenarios.IntegrationTestRun | SmartContract-SolanaBank/tests/anchor.ts:38-390 | the test file's cases in order (reserve 5_000_000_000, deposit and withdraw 10_000_000, loan account initialised, 5_000_000 borrowed at 5% for 15 days, 5_250_000 repaid) all succeed, leaving the reserve at 5_000_250_000, the user with balance 0, a Deposit and a Withdraw entry and no loan flag, and the loan repaid with its terms kept |
| Scenarios.TestLedgerCases | SmartContract-SolanaBank/tests/anchor.ts:38-199 | the test file's first three cases (reserve 5_000_000_000, deposit then withdraw 10_000_000) all succeed: reserve back at 5_000_000_000, balance 0, a Deposit and a Withdraw entry with their timestamps, no loan flag, no loan account |
| Scenarios.DepositThenOverdraw | SmartContract-SolanaBank/programs/bank/src/lib.rs:92 | with the home page's reserve seed 100_000_000_000 (page.tsx:128), a deposit of 10_000_000 gives balance 10_000_000, reserve 100_010_000_000 and one Deposit entry; withdrawing 15_000_000 fails with InsufficientFunds and leaves that state |
| Scenarios.LoanCycle | SmartContract-SolanaBank/programs/bank/src/lib.rs:181-192 | a 5_000_000 loan at 5% for 15 days takes the reserve down by 5_000_000 and shows one active loan; repaying 5_000_000 fails, 5_250_000 succeeds, leaving the reserve 250_000 up, the loan repaid and no active loan; a second repayment fails as already repaid |
| Scenarios.RequestWhileActive | SmartContract-SolanaBank/programs/bank/src/lib.rs:139-179 | a second request during an active loan succeeds, overwrites the loan's terms and pays out again |
| Scenarios.ReinitializeDuringLoan | SmartContract-SolanaBank/programs/bank/src/lib.rs:123-137 | re-initialising the loan account during a loan erases the debt: the loan reads as a repaid loan of 0 (end time kept), the reserve stays 1_000_000 short of its seed, the dashboard still counts one active loan, and repaying then fails with LoanAlreadyRepaid |
| Scenarios.RequestThenRepay | SmartContract-SolanaBank/programs/bank/src/lib.rs:164-211 | from any valid state, a repayment is attempted exactly when the request succeeded, which shows one active loan; a repayment that then succeeds shows none, one that fails leaves one active loan outstanding |

## Left out

- Lamport movement is not modelled. This covers the system-program transfers
  in `deposit` and `repay_loan` and the direct lamport edits in `withdraw` and
  `request_loan`. These are runtime calls that move native funds. The model
  tracks only the program's own counters, so a transfer failing because a
  wallet or the reserve lacks lamports is not an error path here.
- Rent paid when an account is created is not modelled; `init_if_needed`
  creation always succeeds.
- Program-derived addresses and signer checks are replaced by maps keyed by
  the caller's identity. The runtime and the framework do this
  authorisation.
- `msg!` logging is left out. The clock syscall is replaced by the `now`
  parameter.
- Byte-exact account layouts are left out. The user account's fixed
  allocation is the constant `historyCapacity` of each `Bank`; the scenarios
  set it to `UserAccountHistoryCapacity` (94), derived from the encoded
  sizes rather than from serializing bytes.
- Overflow checking is assumed on. Whether `+`, `-` and `*` panic or wrap
  in a release build depends on the Cargo profile's `overflow-checks`
  setting, and the workspace manifest is not part of this model. With checks
  off, the unguarded additions and subtractions would wrap instead of
  failing with `ArithmeticOverflow`.
- The `Transaction signature` column the history table shows is left out.
  The on-chain record has no signature field.
- `AnchorClient.Upper` models `toUpperCase` on ASCII letters only. Non-ASCII
  case mapping is not modelled.
- `TransactionHistory.PageCount` uses exact integer ceiling division. The
  client computes `Math.ceil` on a floating-point quotient. The two agree for
  any list length the client can hold.
- `TransactionHistory.Filtered` works on the decoded log, where every entry
  has a type. An entry without a type would make the client's filter
  callback throw. The dashboard tally does handle such entries, and it is
  modelled over entries whose type key may be absent.
- The home page's fetching, its fallback call to `initialize_supply` when an
  account is missing, and the SOL/lamport display conversions are left out.
  These are network I/O and floating-point presentation.
- The remaining client components are left out: deposit, withdraw, loan
  request and repayment forms, the navbar and the dashboard markup. So is
  the client-side "active loan exists" check before a loan request. These
  are UI and RPC orchestration, and the program does not enforce that check.
