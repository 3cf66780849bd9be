# Wallet ledger model

This project models the ledger of a small wallet service: its request handlers and
what they do to the stored data. The handlers are register, fund, pay, getBalance
(without a currency), getStatement, addProduct and buyProduct, all in
`src/controllers.js`. The stored data is the `users` table (username and balance), the
append-only `transactions` table (owner, `credit`/`debit`, amount, `updated_bal`), the
`products` catalog and the `purchases` table.

- `wallet_types.dfy` (module `WalletTypes`) holds the value types:
  - table rows;
  - request outcomes, as a `Result` whose `Err` case is a 400 answer;
  - the error reasons, one per message the handlers send.
- `transaction_log.dfy` (module `TransactionLog`) treats the transaction log as a value:
  - `Replay` gives a user's balance by replaying the log from zero;
  - `Audited` says every `updated_bal` is the balance its record produced;
  - `Agrees` says the stored balances are non-negative and equal their replay;
  - `StatementOf` is the statement a user reads;
  - lemmas show that opening an account, a credit, a debit and a transfer keep the books agreeing.
- `controllers.dfy` (module `Controllers`) holds one class, `Ledger`:
  - its fields are the tables;
  - `Valid()` is the ledger's consistency invariant;
  - the constructor stands for the initial, empty database: no rows, and both serial counters at 1;
  - each handler is a method that checks its guards in the handler's order;
  - a failed guard returns `Err` and changes nothing;
  - otherwise the method updates balances and appends rows in one atomic step.

The authenticated caller is passed as a user id naming an existing account. A numeric
request field (`amt`, `price`, `product_id`) that is missing or not a number is `None`.
A string field (`to`, `username`, `password`, `name`) is a `string`, and a missing or
empty one is `[]`. Money is an exact `real` in the base
currency (INR).

## Model

| member | source | states |
|---|---|---|
| Controllers.Ledger.FindUser | src/controllers.js:55-57 | The username lookup finds an account exactly when some user holds that username; the account found has that username and a balance. |
| Controllers.Ledger.Register | src/controllers.js:5-19 | Missing username or password is refused; a username already held is refused. Either refusal changes nothing. Otherwise a new account under a fresh id with balance 0 is created, and the log and catalog are untouched. Registration succeeds exactly when neither refusal applies. The ledger invariant is kept. |
| Controllers.Ledger.Fund | src/controllers.js:21-41 | A missing or non-positive amount is refused with nothing changed. A positive amount raises the caller's balance by that amount, appends one `credit` row carrying the new balance, returns that balance and leaves everything else alone. |
| Controllers.Ledger.PayGuard | src/controllers.js:47-61 | The pay checks, in order: missing recipient or non-positive amount; payment to one's own username (before any lookup); unknown recipient; balance below the amount. Each error holds exactly when the earlier checks pass and its own check fails. Passing yields a recipient other than the caller with that username. |
| Controllers.Ledger.Pay | src/controllers.js:43-87 | Fails exactly when the checks fail, with the same error and nothing changed. On success the caller's balance drops and the recipient's rises by the amount, their sum is conserved, the caller stays non-negative and no other balance moves. Two rows are appended, the caller's `debit` then the recipient's `credit`, each carrying its owner's new balance. The caller's new balance is returned. The ledger invariant is kept. |
| Controllers.Ledger.GetBalance | src/controllers.js:89-96 | The returned balance is the caller's stored balance, non-negative, and equal to replaying the caller's records. |
| Controllers.Ledger.GetStatement | src/controllers.js:106-113 | Returns the caller's statement: it holds exactly the caller's records, most recent first. Its signed amounts add up to the stored balance, and its first row shows the current balance. |
| Controllers.Ledger.AddProduct | src/controllers.js:120-135 | A missing name or non-positive price is refused with nothing changed. Otherwise the product is added under a fresh id, which is returned, and nothing else changes. |
| Controllers.Ledger.BuyGuard | src/controllers.js:151-162 | The buy checks, in order: missing or zero product id; no catalog entry under the id; balance below the price. Each error holds exactly when the earlier checks pass and its own check fails. The request passes exactly when all three checks pass, and then yields the catalog entry, whose price is positive and covered by the balance. |
| Controllers.Ledger.BuyProduct | src/controllers.js:147-184 | Fails exactly when the checks fail, with the same error and nothing changed. On success the price is debited from the caller, who stays non-negative. One `debit` row carrying the new balance and one purchase row are appended, and the new balance is returned. The ledger invariant is kept. |
| TransactionLog.ReplayAppend | src/controllers.js:31-35 | Appending a record moves its owner's replayed balance by its signed amount and no one else's. |
| TransactionLog.ReplayAbsent | src/controllers.js:12 | A user without records replays to balance 0, the balance a new account starts with. |
| TransactionLog.AuditedAppend | src/controllers.js:70-78 | Appending a record whose `updated_bal` is its owner's new balance keeps every `updated_bal` equal to the balance it produced. |
| TransactionLog.AuditedAt | src/controllers.js:33-34 | In an audited log, any record's `updated_bal` is its owner's balance replayed up to and including that record. |
| TransactionLog.OpenKeepsAgreement | src/controllers.js:12 | Opening a balance-0 account for a new user keeps the stored balances equal to the replayed ones. |
| TransactionLog.CreditKeepsAgreement | src/controllers.js:28-35 | A positive credit, with its `credit` row carrying the new balance, keeps the books agreeing. |
| TransactionLog.DebitKeepsAgreement | src/controllers.js:164-171 | A positive debit the balance covers, with its `debit` row carrying the new balance, keeps the books agreeing, so no balance goes negative. |
| TransactionLog.TransferKeepsAgreement | src/controllers.js:63-78 | A covered transfer between two different users, logged as the sender's `debit` then the recipient's `credit`, keeps the books agreeing. |
| TransactionLog.StatementOf | src/controllers.js:109-111 | Every statement row belongs to the user, and the statement is no longer than the log. |
| TransactionLog.StatementMembers | src/controllers.js:109-111 | A record is on a user's statement exactly when it is in the log and belongs to that user. |
| TransactionLog.StatementAppend | src/controllers.js:109-111 | A newly appended record heads its owner's statement (most recent first) and leaves other users' statements unchanged. |
| TransactionLog.StatementHead | src/controllers.js:109-111 | In an audited log, the first row of a non-empty statement carries the user's current replayed balance. |
| TransactionLog.StatementSum | src/controllers.js:109-111 | The signed amounts on a user's statement add up to the user's replayed balance. |

Notes:

- The handlers check self-payment (lines 50-52) before the recipient lookup (lines 55-57). The model keeps this order: once the input is valid, paying one's own username is refused as a self-payment, whether or not the recipient lookup would succeed.
- buyProduct (lines 158-164) does not check that the price is positive. Instead, the ledger invariant guarantees it for every catalog entry, because addProduct (line 122) admits only positive prices.
- A duplicate username is detected by the database's unique constraint (line 15). The model checks the username index before inserting.

## Left out

- Password hashing and authentication: passwords are checked for presence only. The hash is not stored.
- getBalance with a currency other than INR: the conversion calls an external exchange-rate service and is not modelled.
- Concurrency and the request-time snapshot of the caller's row are not modelled. Each handler is modelled as one atomic step on the current state. The handlers compute new balances from a snapshot taken at authentication, so concurrent requests can lose updates. fund also runs without a database transaction, so its two writes are not atomic.
- Database failures and the 500 answers they cause are not modelled, including the ROLLBACK paths.
- JavaScript number semantics are not modelled. Amounts are exact reals, with no floating-point rounding. A numeric field that is absent or not of type number is `None`. NaN and infinities are not distinguished. String fields are always strings: a truthy value of another type is not modelled.
- Controllers.Ledger.PayGuard / Pay: `to` is modelled as a string, and a truthy non-string `to` is not modelled. The source compares `to` with the sender's username by strict equality (src/controllers.js:50). The recipient lookup (line 55), however, matches it as text. So a user named "123" who sends the number 123 gets past the self-payment check and is found as their own recipient. Both updates (lines 67-68) then hit the same row, and the balance ends at the old balance plus the amount. Replaying the `debit` and `credit` rows (lines 70-78) still gives the old balance. Funds are then not conserved, and the stored balance no longer matches its records. The model's conservation and agreement guarantees hold only for string recipients.
- listProducts is not modelled: it is a read of the whole catalog with nothing to prove.
- Statement rows differ from the rows the query at src/controllers.js:110 selects. They have no timestamp column: a record's position in the log stands for its timestamp, so two records never tie. They also carry the owner's id, which that query does not select. On a statement the id is always the caller's own (StatementOf's contract), so it adds no information.
- The product description is stored unchecked, as the source does.
- Purchase rows hold only the user and product ids, as in the source's `purchases` table. Nothing links a purchase to its `debit` row.
