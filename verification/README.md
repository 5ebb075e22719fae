# Bit wallet ledger engine

A Dafny model of the balance-mutation-plus-ledger engine of the bit-casino
currency service. The service keeps one bit wallet per player in
`bit_wallets` and one row per attempted balance change in `transactions`. It
changes a balance only through `update_wallet_balance`. That query locks the
wallet row, adds the requested amount, and writes the sum only if it is not
negative. The `/transaction` handler then records the attempt with
`commit_transaction`, whatever the update did. Finally it classifies the
(update, log) pair into four responses. "Completed but not logged" is kept
apart from "neither happened".

The model is a functional state machine:

- `Models` has the row types (`BitWallet`, `Transaction`), `Result`/`Option`, and the `sqlx` error kinds the queries produce (`RowNotFound`, `InvalidArgument`, `Storage`).
- `Queries` has a `Store`: a map from player id to exact balance, plus the sequence of transaction rows. Each query is a pure function from a store to a `Step` (the new store and the query's result).
- `TransactionHandler` is the handler body after authentication. It covers the update, the unconditional log, the four-way `Outcome` and the HTTP `Response`.
- `Sessions` replays many requests one after another, each request's balance update followed directly by its ledger insert. It proves that balances and ledger reconcile over any such run.

Storage behaviour is an input, not a guess:

- `UpdateFault` says where `update_wallet_balance` fails, if anywhere: the `BEGIN`, the locking `SELECT`, the `UPDATE`, or the commit.
- A boolean says whether any other query fails.
- A `Stamp` carries the id and timestamp the database would assign to a new transaction row.
- `BigDecimal` is modelled as `real` (exact rationals), with no rounding.

Behaviour of the code worth knowing:

- Every failed update, whatever its cause, is logged with the single message "Failed to update the balance." (src/handlers/transaction.rs:57).
- Any failed update whose log succeeds gives 409 (`Rejected`), including a missing wallet or a storage fault (src/handlers/transaction.rs:70-76).
- When the ledger insert fails, no row is written. So there is exactly one row per request whose insert succeeds (src/handlers/transaction.rs:54-60, 77-90).
- There is no duplicate-wallet check in the service. A second insert for the same player fails in the database (src/db/queries.rs:98-110).

## Model

| member | source | states |
|---|---|---|
| Queries.GetWallet | src/db/queries.rs:15-23 | Returns the stored wallet of the player exactly when the player has one and storage works. A missing wallet gives `RowNotFound`. Reading has no effect on the store. |
| Queries.UpdateWalletBalance | src/db/queries.rs:44-87 | Succeeds exactly when storage works, the wallet exists and old balance + amount >= 0. It then returns the wallet with exactly old + amount, and only that player's balance changes. On every failure the store is unchanged. The ledger is never touched. |
| Queries.UpdatePreservesNonNegative | src/db/queries.rs:62-68 | If every balance is non-negative before an update, committed or refused, every balance is non-negative after it. |
| Queries.UpdateRefusesOverdraft | src/db/queries.rs:64-68 | Once the wallet has been read, an update that would leave a negative balance returns the "Cannot create negative balance." error and leaves the store unchanged. |
| Queries.UpdateOfMissingWallet | src/db/queries.rs:51-60 | Once the transaction has begun and the select ran, an update of a player with no wallet fails with `RowNotFound` and leaves the store unchanged. |
| Queries.ReadAfterUpdate | src/db/queries.rs:44-87 | Reading after an update returns the updated wallet if the update committed. Otherwise it returns exactly what a read before the update returned. |
| Queries.UpdateIsolatesOtherWallets | src/db/queries.rs:70-82 | An update of one player leaves every other player's wallet reading exactly as before. |
| Queries.CreateWallet | src/db/queries.rs:98-110 | Inserts a wallet with the default balance exactly when storage works and the player has none yet. Existing wallets and the ledger are unchanged. A failed insert changes nothing. |
| Queries.ReadAfterCreate | src/db/queries.rs:98-110 | After a successful create, reading the wallet returns the created wallet. |
| Queries.CreatePreservesNonNegative | src/db/queries.rs:98-110 | With a non-negative default balance, creating a wallet keeps every balance non-negative. |
| Queries.CommitTransaction | src/db/queries.rs:121-161 | On success it appends exactly one row and leaves earlier rows and all wallets unchanged. The row holds player id, amount, reason and the error message verbatim, with the database's id and timestamp. `success` is false exactly when a message is given. On failure nothing changes. |
| Queries.CommitPreservesLedger | src/db/queries.rs:121-161 | The transactions table is append-only. Earlier rows are a prefix of the new table, and every row keeps `success` iff no error message. |
| TransactionHandler.Classify | src/handlers/transaction.rs:62-91 | The four outcomes correspond one-to-one to the four (update, log) result pairs. A completed outcome carries the updated wallet's balance. |
| TransactionHandler.HandleTransaction | src/handlers/transaction.rs:50-91 | The balance moves by exactly the amount when the update can commit, and otherwise is unchanged. Unless the insert fails, exactly one row is logged with the requested amount and reason. Its `success` is true exactly when the update committed, and otherwise it carries "Failed to update the balance.". The outcome is Completed (with old + amount, the stored balance), Rejected, CompletedUnlogged or Failed, one for each (update, log) combination. |
| TransactionHandler.Respond | src/handlers/transaction.rs:62-91 | Completed gives 200 carrying the balance. Rejected gives 409. The two unlogged outcomes give 500. |
| TransactionHandler.RespondDistinguishesOutcomes | src/handlers/transaction.rs:77-90 | Distinct outcomes give distinct responses. In particular, "completed but not logged" is never reported like "not completed or logged". |
| TransactionHandler.UnloggedMovesMoneyFailedDoesNot | src/handlers/transaction.rs:77-90 | When the log fails, CompletedUnlogged means the balance moved by the amount, and Failed means the whole store is unchanged. |
| TransactionHandler.HandlePreservesInvariants | src/handlers/transaction.rs:50-60 | A request never makes a balance negative, keeps every ledger row well formed, and never alters earlier rows. |
| Sessions.ReplayPreservesInvariants | src/handlers/transaction.rs:50-60 | After any serial run of requests, with any storage failures, the same holds: balances are non-negative, rows are well formed, and earlier rows are kept. |
| Sessions.ReplayLogsEveryAttempt | src/handlers/transaction.rs:54-60 | A sequence of requests keeps the earlier rows and adds exactly one row per request whose insert succeeds, whatever its update did, in request order. Each new row holds its request's player, amount, reason, id and timestamp; it has `success` true exactly when that request's update committed, and otherwise the message "Failed to update the balance.". No wallet is added or removed. |
| Sessions.BalanceTracksAccepted | src/db/queries.rs:62-86 | A player's final balance is the initial one plus the amounts of exactly those of their requests whose update committed. |
| Sessions.LedgerMissesOnlyUnlogged | src/handlers/transaction.rs:54-60 | The successful rows of a player's ledger record every committed amount, except those reported as completed but not logged. |
| Sessions.Reconciles | src/handlers/transaction.rs:50-91 | Over any serial run of requests, a player's balance change equals what their successful ledger rows record plus what was reported as completed but not logged. Balances and ledger never diverge silently. |
| Sessions.SolventRequestsAllComplete | src/db/queries.rs:62-86 | Requests on one wallet whose running totals never go negative all complete when storage works. The final balance is the initial one plus their total. |

## Left out

- Authentication: the token extraction and the call to the player service (src/handlers/transaction.rs:34-48, src/requests/player.rs). They are network I/O to an external service. The authenticated player id is an input.
- Connection pool, environment, server bootstrap and routing (src/db.rs, src/main.rs, src/router.rs). These are process plumbing.
- Row-level locking (`FOR UPDATE`) and concurrent interleavings. Each query is one atomic step, and `Sessions` replays whole requests in a serial order.
- Interleaving inside a request: the row lock is released at the commit of `update_wallet_balance` (src/db/queries.rs:84), and the ledger insert runs afterwards on another pool connection (src/handlers/transaction.rs:55, 58). Another request's update and insert can fall in between. Such runs can reach states that no serial replay reaches, for example ledger rows in a different order from the balance updates. They are not modelled.
- The wallet-creation and wallet-lookup handlers (src/handlers/creation.rs, src/handlers/find.rs). They only map the result of `create_wallet` / `get_wallet` to a status code.
- src/handlers/responses.rs. Its only constant, "Token authentication failed.", is used only by the authentication code that is left out. The four messages of the transaction handler are string literals at src/handlers/transaction.rs:57, 73, 80 and 87, and the model uses them verbatim.
- TransactionHandler.Respond: the 200 body carries the exact balance. The `to_u128().unwrap()` conversion is not modelled, because its handling of fractional or out-of-range values is defined by the decimal library.
- Queries.CreateWallet: the initial balance is a parameter, because it is a database default. The store holds one wallet per player, so inserting a second one is refused as a storage error. The schema that enforces this is not part of this model.
- Queries.CommitTransaction: whether the insert fails, including a foreign-key violation for a player without a wallet, is a storage input. The schema is not part of this model. The row id and timestamp are inputs (`Stamp`), and their uniqueness and ordering are not modelled.
- Queries.UpdateWalletBalance: a failed commit is modelled as a rollback. A commit whose outcome is unknown to the client (connection lost after the server committed) is not modelled. A caller retry in that case could apply the delta twice, and the service has no idempotency key to prevent it.
- `sqlx::Error` is reduced to three kinds: no row, the service's own invalid-argument error, and every other storage failure.
- Decimal values are `real`. Every exact decimal is representable, and the model also admits non-decimal rationals, which the service never produces.
