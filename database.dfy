/** The database access layer (service/src/database.rs): a pool facade that
    hands out connections, connections that begin transactions, and transaction
    handles that execute statements, commit, and warn when dropped uncommitted.
    Calls into the Postgres driver and the pool are not modelled: the value each
    returned is a parameter of the method that makes the call. Tracing is
    modelled as the span each operation fills in and the events it logs. */
module Database {
  import opened Wrappers
  import opened Lifecycle

  /** Rust's `u64`, the driver's count of modified rows. */
  newtype U64 = x: int | 0 <= x < 0x1_0000_0000_0000_0000

  /** An error reported by the driver or the pool; its contents are opaque. */
  datatype DbError = DbError(message: string)

  /** A row returned by a query; its columns are opaque here. */
  datatype Row = Row(columns: seq<string>)

  datatype IsolationLevel = ReadUncommitted | ReadCommitted | RepeatableRead | Serializable

  /** The options a transaction is started with. */
  datatype TxOptions = TxOptions(isolation: IsolationLevel, readOnly: bool, deferrable: bool)

  /** The driver's transaction: which one the driver started, and with what options. */
  datatype DriverTransaction = DriverTransaction(id: nat, options: TxOptions)

  /** The fields of the trace span each transaction operation opens. A field
      declared `Empty` and never recorded is `None`. */
  datatype Span =
    | ExecuteSpan(sql: string, result: Option<U64>, error: Option<bool>)
    | BatchExecuteSpan(sql: string, error: Option<bool>)
    | QuerySpan(sql: string, rows: Option<nat>, error: Option<bool>)
    | CommitSpan(error: Option<bool>)
  {
    function Name(): string {
      match this
      case ExecuteSpan(_, _, _) => "database::Transaction::execute"
      case BatchExecuteSpan(_, _) => "database::Transaction::batch_execute"
      case QuerySpan(_, _, _) => "database::Transaction::query"
      case CommitSpan(_) => "database::Transaction::commit"
    }
  }

  /** The connection pool facade. */
  class Database {
    constructor ()
    {
    }

    /** `Database::connect`: logs that it is getting a connection, then either
        wraps the pooled client the pool handed out (`acquired`) or panics. */
    method Connect(acquired: Result<nat, DbError>) returns (c: Outcome<Connection>, events: seq<Event>)
      ensures events == [Debug("Getting database connection")]
      ensures acquired.Ok? <==> c.Done?
      ensures c.Done? ==> fresh(c.value) && c.value.client == acquired.value
      ensures c.Done? ==> !c.value.borrowed && !c.value.dropped
      ensures acquired.Err? ==> c == Panic("Failed to get database connection")
    {
      events := [Debug("Getting database connection")];
      match acquired
      case Ok(client) =>
        var conn := new Connection(client);
        c := Done(conn);
      case Err(_) =>
        c := Panic("Failed to get database connection");
    }
  }

  /** A connection leased from the pool. */
  class Connection {
    /** The pooled client this connection wraps. */
    const client: nat
    /** True while a transaction begun on this connection is alive: `begin`
        borrows the connection mutably for the lifetime of the transaction. */
    var borrowed: bool
    /** True once the connection has been dropped (returned to the pool). */
    var dropped: bool

    constructor (client: nat)
      ensures this.client == client && !borrowed && !dropped
    {
      this.client := client;
      borrowed, dropped := false, false;
    }

    /** `Connection::begin`: requests a serializable, read-write, non-deferrable
        transaction; when the driver starts it (`started` is its id) the result
        is an open handle holding it, which borrows this connection until it is
        dropped; otherwise the call panics. */
    method Begin(started: Result<nat, DbError>) returns (t: Outcome<Transaction>, events: seq<Event>)
      requires !dropped && !borrowed
      modifies this`borrowed
      ensures events == [Debug("Starting transaction")]
      ensures started.Ok? <==> t.Done?
      ensures borrowed <==> t.Done?
      ensures t.Done? ==> fresh(t.value) && t.value.conn == this
      ensures t.Done? ==> t.value.State() == Open && !t.value.dropped
      ensures t.Done? ==> t.value.inner.value.id == started.value
      ensures t.Done? ==> t.value.inner.value.options.isolation == Serializable
      ensures t.Done? ==> !t.value.inner.value.options.readOnly && !t.value.inner.value.options.deferrable
      ensures started.Err? ==> t == Panic("Failed to start transaction")
    {
      events := [Debug("Starting transaction")];
      var options := TxOptions(Serializable, false, false);
      match started
      case Ok(id) =>
        var tx := new Transaction(DriverTransaction(id, options), this);
        t := Done(tx);
      case Err(_) =>
        t := Panic("Failed to start transaction");
    }

    /** `Drop for Connection`: logs that the connection goes back to the pool.
        A connection cannot be dropped while a transaction borrows it. */
    method Drop() returns (events: seq<Event>)
      requires !dropped && !borrowed
      modifies this`dropped
      ensures dropped
      ensures events == [Debug("Returning database connection")]
      ensures WarnCount(events) == 0
    {
      events := [Debug("Returning database connection")];
      assert events[1..] == [];
      dropped := true;
    }
  }

  /** A transaction handle. It holds the driver's transaction until `commit`
      takes it out, and it is dropped exactly once: by the caller, or by
      `commit`, which consumes it. */
  class Transaction {
    var inner: Option<DriverTransaction>
    /** True once the handle has been dropped; nothing may use it afterwards. */
    var dropped: bool
    /** The connection this transaction was begun on and borrows. */
    const conn: Connection

    /** A handle holding `tx` borrows `conn` for as long as it lives, so it can
        only be made on a connection that is neither borrowed nor dropped. */
    constructor (tx: DriverTransaction, conn: Connection)
      requires !conn.borrowed && !conn.dropped
      modifies conn`borrowed
      ensures inner == Some(tx) && !dropped && this.conn == conn
      ensures conn.borrowed
    {
      inner := Some(tx);
      dropped := false;
      this.conn := conn;
      conn.borrowed := true;
    }

    /** The handle's state: Open while it still holds the driver's transaction. */
    function State(): (s: TxState)
      reads this
      ensures s == Open <==> inner.Some?
    {
      if inner.Some? then Open else Consumed
    }

    /** `Transaction::execute`: runs one statement on the open transaction,
        returns what the driver returned (`outcome`) and records in the span the
        count of modified rows on success and the error flag either way. The
        handle is not changed: this is `Lifecycle.Step` on `Execute`. */
    method Execute(sql: string, outcome: Result<U64, DbError>) returns (r: Result<U64, DbError>, span: Span)
      requires State() == Open && !dropped
      ensures r == outcome
      ensures span.ExecuteSpan? && span.Name() == "database::Transaction::execute" && span.sql == sql
      ensures span.error == Some(r.IsErr())
      ensures span.result.Some? <==> r.Ok?
      ensures r.Ok? ==> span.result == Some(r.value)
    {
      var result: Option<U64> := None;
      var error: Option<bool> := None;
      r := outcome;
      if r.Ok? {
        result := Some(r.value);
        error := Some(false);
      } else {
        error := Some(true);
      }
      span := ExecuteSpan(sql, result, error);
    }

    /** `Transaction::batch_execute`: runs a script on the open transaction,
        returns what the driver returned and records the error flag. The handle
        is not changed: this is `Lifecycle.Step` on `BatchExecute`. */
    method BatchExecute(sql: string, outcome: Result<(), DbError>) returns (r: Result<(), DbError>, span: Span)
      requires State() == Open && !dropped
      ensures r == outcome
      ensures span.BatchExecuteSpan? && span.Name() == "database::Transaction::batch_execute"
      ensures span.sql == sql
      ensures span.error == Some(r.IsErr())
    {
      r := outcome;
      span := BatchExecuteSpan(sql, Some(r.IsErr()));
    }

    /** `Transaction::query`: runs a query on the open transaction, returns what
        the driver returned and records in the span the number of rows on
        success and the error flag either way. The handle is not changed: this
        is `Lifecycle.Step` on `Query`. */
    method Query(sql: string, outcome: Result<seq<Row>, DbError>) returns (r: Result<seq<Row>, DbError>, span: Span)
      requires State() == Open && !dropped
      ensures r == outcome
      ensures span.QuerySpan? && span.Name() == "database::Transaction::query" && span.sql == sql
      ensures span.error == Some(r.IsErr())
      ensures span.rows.Some? <==> r.Ok?
      ensures r.Ok? ==> span.rows == Some(|r.value|)
    {
      var rows: Option<nat> := None;
      var error: Option<bool> := None;
      r := outcome;
      if r.Ok? {
        rows := Some(|r.value|);
        error := Some(false);
      } else {
        error := Some(true);
      }
      span := QuerySpan(sql, rows, error);
    }

    /** `Transaction::commit`: takes the driver's transaction out of the handle,
        leaving it Consumed whether or not the driver's commit (`outcome`)
        succeeded, returns that outcome and records the error flag. Since it
        consumes the handle, the handle is dropped on return: that drop logs
        only "Finishing transaction" and releases the connection. */
    method Commit(outcome: Result<(), DbError>) returns (r: Result<(), DbError>, span: Span, events: seq<Event>)
      requires State() == Open && !dropped
      modifies this`inner, this`dropped, conn`borrowed
      ensures inner == None && State() == Consumed
      ensures Step(old(State()), Lifecycle.Commit) == Some(State())
      ensures r == outcome
      ensures span == CommitSpan(Some(r.IsErr())) && span.Name() == "database::Transaction::commit"
      ensures dropped && !conn.borrowed
      ensures events == DropEvents(Consumed) && WarnCount(events) == 0
    {
      inner := None;
      r := outcome;
      span := CommitSpan(Some(r.IsErr()));
      events := Drop();
    }

    /** `Drop for Transaction`: logs that the transaction is finishing and, when
        the handle still holds the driver's transaction, warns once that it
        will be rolled back. It ends the handle and its borrow of the
        connection. */
    method Drop() returns (events: seq<Event>)
      requires !dropped
      modifies this`dropped, conn`borrowed
      ensures dropped && !conn.borrowed
      ensures events == DropEvents(State())
      ensures events[0] == Debug(FinishingMessage)
      ensures WarnCount(events) == (if inner.Some? then 1 else 0)
    {
      events := [Debug(FinishingMessage)];
      if inner.Some? {
        events := events + [Warn(RollbackMessage)];
      }
      dropped := true;
      conn.borrowed := false;
    }
  }

  /** A caller that begins a transaction, executes one statement and drops the
      handle without committing: the drop warns of the rollback exactly once,
      and the connection is free again afterwards. */
  method ExecuteThenDrop(conn: Connection, started: Result<nat, DbError>, executed: Result<U64, DbError>)
    returns (warnings: nat)
    requires !conn.dropped && !conn.borrowed
    modifies conn
    ensures started.Ok? ==> warnings == 1
    ensures started.Err? ==> warnings == 0
    ensures !conn.borrowed && !conn.dropped
  {
    var t, _ := conn.Begin(started);
    warnings := 0;
    if t.Done? {
      var tx := t.value;
      var _, _ := tx.Execute("INSERT", executed);
      var events := tx.Drop();
      warnings := WarnCount(events);
    }
  }

  /** A caller that begins a transaction, executes one statement and commits:
      whatever the commit returned, the drop that ends the handle never warns,
      and the connection is free again afterwards. */
  method ExecuteThenCommit(conn: Connection, started: Result<nat, DbError>,
                           executed: Result<U64, DbError>, committed: Result<(), DbError>)
    returns (warnings: nat)
    requires !conn.dropped && !conn.borrowed
    modifies conn
    ensures warnings == 0
    ensures !conn.borrowed && !conn.dropped
  {
    var t, _ := conn.Begin(started);
    warnings := 0;
    if t.Done? {
      var tx := t.value;
      var _, _ := tx.Execute("INSERT", executed);
      var _, _, events := tx.Commit(committed);
      warnings := WarnCount(events);
    }
  }
}
