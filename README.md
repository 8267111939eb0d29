# bigbang service: transaction handles and HAL links in Dafny

This project models the two parts of the `bigbang` HTTP service that carry
logic of their own.

- **The database access layer** (`service/src/database.rs`). `Database::connect`
  leases a connection from the pool. `Connection::begin` starts a serializable,
  read-write, non-deferrable transaction and wraps it in a `Transaction` handle
  that holds the driver's transaction in an `Option`. `execute`,
  `batch_execute` and `query` run statements on the held transaction and record
  trace-span fields derived from the driver's result. `commit` takes the
  driver's transaction out of the handle. When the handle is dropped it logs
  "Finishing transaction" and, if it still holds the driver's transaction,
  warns that the transaction will be rolled back.
  The handle is a class (`Database.Transaction`) whose `inner` field `Commit`
  empties. A `dropped` flag makes the drop the handle's last event; `Commit`,
  which consumes the handle, ends with that drop. A handle borrows its
  `Database.Connection` from its construction until its drop (the `&mut self`
  of `begin`, carried by the driver's transaction the handle holds), and a
  handle can only be made on an unborrowed, undropped connection; so while a
  transaction is alive the connection can neither begin a second transaction
  nor be dropped. The two-state lifecycle (Open, Consumed) and the operation sequences
  a caller can issue are stated as functions in `Lifecycle`, with lemmas
  proving that the fate of every handle follows from whether it was committed.
- **HAL links** (`service/src/http/hal/links.rs`). A `Link` has an href and an
  optional name. `Links` is a single link or a list of them. `append` always
  yields the list form, with the new link last.

Calls into the Postgres driver and the pool are not modelled. The value each
call returned (a `Result`) is a parameter of the method that makes it, so every
contract holds for any driver behaviour. Tracing is modelled as values: the
fields of the span each operation fills in (`Database.Span`, where a field
declared empty and never recorded is `None`) and the log events
(`Lifecycle.Event`) it writes. A panic from `expect` is an explicit
`Outcome.Panic` result. An `unwrap` on the handle's inner value is a
precondition (`State() == Open`): Rust's move semantics of `commit` make it
unreachable for callers, and `Lifecycle.Run` maps the same case to `None`.

Files: `wrappers.dfy` (Option, Result, Outcome), `links.dfy` (module
`HalLinks`), `lifecycle.dfy` (module `Lifecycle`), `database.dfy` (module
`Database`).

## Model

| member | source | states |
|---|---|---|
| `HalLinks.LinkFrom` | service/src/http/hal/links.rs:13-22 | the link built from a string has that string as href and no name |
| `HalLinks.Append` | service/src/http/hal/links.rs:35-50 | the result is always the `Multiple` variant and holds the previous links in order followed by the new link |
| `HalLinks.AppendToSingle` | service/src/http/hal/links.rs:40-42 | `Single(a)` with `b` appended is `Multiple([a, b])` |
| `HalLinks.AppendToMultiple` | service/src/http/hal/links.rs:43-46 | `Multiple(xs)` with `l` appended is `Multiple(xs + [l])` |
| `HalLinks.AppendKeepsExisting` | service/src/http/hal/links.rs:38-50 | the count grows by exactly one (a `Single` counts as one), the new link is last, and every link already present keeps its position, href and name |
| `HalLinks.ConvertStrToLink` | service/src/http/hal/links.rs:58-64 | the unit test: `Link::from("/test")` has href "/test" and no name |
| `HalLinks.AppendTests` | service/src/http/hal/links.rs:66-89 | the two unit tests of `append` on a single link and on a list |
| `Lifecycle.Step` | service/src/database.rs:78-189 | an operation succeeds exactly on an Open handle, and only `commit` moves it to Consumed |
| `Lifecycle.DropEvents` | service/src/database.rs:59-66 | dropping logs "Finishing transaction" first, followed by the rollback warning exactly when the handle is still Open, and nothing else: two events for an Open handle, one for a Consumed one |
| `Lifecycle.RunOutcome` | service/src/database.rs:78-189 | any sequence of operations on a fresh handle leaves it Open if it holds no commit, Consumed if its only commit is last, and panics otherwise: Open and Consumed are the only states and commit is the only transition |
| `Lifecycle.OperationsKeepOpen` | service/src/database.rs:78-172 | any number of `execute`, `batch_execute` and `query` calls leave an open handle open |
| `Lifecycle.RollbackIffNotCommitted` | service/src/database.rs:59-189 | after any run that does not panic, the drop warns of a rollback once if the run held no commit and never if it did |
| `Lifecycle.ConsumedIsTerminal` | service/src/database.rs:176-183 | a consumed handle accepts no further operation |
| `Database.Database.Connect` | service/src/database.rs:20-31 | logs "Getting database connection"; wraps the pooled client in a fresh, unborrowed connection when the pool hands one out, and panics with "Failed to get database connection" otherwise |
| `Database.Connection.Begin` | service/src/database.rs:34-50 | on a connection no transaction borrows: logs "Starting transaction"; when the driver starts the transaction the result is a fresh Open handle holding it, requested as Serializable, not read-only and not deferrable, and borrowing the connection from then until the handle is dropped; otherwise it panics with "Failed to start transaction" |
| `Database.Connection.Drop` | service/src/database.rs:53-57 | dropping a connection no transaction borrows logs "Returning database connection" and no warning, and ends the connection |
| `Database.Transaction.State` | service/src/database.rs:17-18 | the handle is Open exactly when its inner value is present |
| `Database.Transaction.Execute` | service/src/database.rs:78-107 | on an Open, undropped handle: returns the driver's result unchanged; the span is named "database::Transaction::execute", carries the SQL, and records `result` = the row count and `error` = false on success, and `error` = true with `result` left empty on failure; the handle is not changed |
| `Database.Transaction.BatchExecute` | service/src/database.rs:109-133 | on an Open, undropped handle: returns the driver's result unchanged; the span is named "database::Transaction::batch_execute", carries the SQL and records `error` = whether it failed; the handle is not changed |
| `Database.Transaction.Query` | service/src/database.rs:135-172 | on an Open, undropped handle: returns the driver's result unchanged; the span is named "database::Transaction::query", carries the SQL, and records `rows` = the number of rows and `error` = false on success, and `error` = true with `rows` left empty on failure; the handle is not changed |
| `Database.Transaction.Commit` | service/src/database.rs:174-189 | takes the inner value, so the handle is Consumed whether the driver's commit succeeded or failed; returns the driver's result unchanged; the span "database::Transaction::commit" records `error` = whether it failed; the handle is then dropped, logging "Finishing transaction" and no rollback warning, and the connection is released |
| `Database.Transaction.Drop` | service/src/database.rs:59-66 | on a handle not yet dropped: logs "Finishing transaction" and then exactly one rollback warning when the inner value is still present, none otherwise; afterwards the handle is dropped and the connection no longer borrowed |
| `Database.ExecuteThenDrop` | service/src/database.rs:59-107 | a caller that begins, executes and drops without committing sees exactly one rollback warning whenever the transaction started, and the connection is free again afterwards |
| `Database.ExecuteThenCommit` | service/src/database.rs:59-189 | a caller that begins, executes and commits never sees a rollback warning, whatever the commit returned, and the connection is free again afterwards |

## Left out

- Metrics: `service/src/database.rs` registers no counters or gauges, so none are modelled (the integration test `service/src/integration/tests/metrics.rs:12` expects `/metrics` to answer 404).
- SQL semantics, rows and the server-side rollback: the driver and the pool are opaque, and their results are parameters.
- Bind parameters of `execute` and `query`: they are only forwarded to the driver, whose result is a parameter, so they are not modelled.
- Pool construction (`service/src/database/component.rs`): URL parsing, the pool size of 16, the start-up connectivity check and the migration are library calls and start-up side effects.
- `service/src/database/migrate.rs` is not part of this model.
- Async suspension and concurrency, including the pool's bound on simultaneous checkouts.
- Rust lifetimes and moves are type-level guarantees; the model states them as flags and preconditions: the `borrowed` flag of a connection stands for the `&mut self` borrow of `begin`, and the `dropped` flag with the `State() == Open` precondition stands for the move of `commit` and the end of a dropped handle.
- `Lifecycle.Event` logs only the message text and level of each `tracing::debug!`/`tracing::warn!`; span timing and nesting are left out.
- The JSON encoding of `Link` and `Links` (`skip_serializing_if`, `untagged`) is produced by a derive macro and is not modelled.
- Panic messages: `Outcome.Panic` carries the argument of `expect` only; Rust also appends the debug form of the driver's error, which is opaque here.
- HTTP handlers, server set-up, settings loading and the integration tests.
