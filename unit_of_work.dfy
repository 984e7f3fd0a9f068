/** The PostgreSQL Unit of Work (app/infrastructure/database/unit_of_work.py):
    a connection borrowed from the pool with a transaction open on it, ended
    by a commit or a rollback when the scope exits. The server's answer to
    COMMIT or ROLLBACK is the parameter `fault`. */
module UnitOfWork {
  import opened Primitives
  import opened Errors
  import opened Storage

  /** The transaction object asyncpg hands out for a connection. */
  datatype Transaction = Transaction(conn: ConnId)

  class PostgreSQLUnitOfWork {
    const db: Pool
    var connection: Option<ConnId>
    var transaction: Option<Transaction>

    /** A held connection is borrowed from the pool, and the transaction
        belongs to it; both are set together or not at all. */
    ghost predicate Valid()
      reads this, db, db.store
    {
      && db.Valid()
      && (connection.Some? ==> connection.value in db.borrowed)
      && transaction == (if connection.Some? then Some(Transaction(connection.value)) else None)
    }

    constructor (db: Pool)
      requires db.Valid()
      ensures Valid() && this.db == db && connection == None && transaction == None
    {
      this.db := db;
      connection := None;
      transaction := None;
    }

    /** `get_connection`: the held connection, or "No active transaction". */
    function GetConnection(): (r: Result<ConnId, Error>)
      reads this
      ensures connection.Some? ==> r == Success(connection.value)
      ensures connection.None? ==> r == Failure(NoActiveTransaction)
    {
      if connection.None? then Failure(NoActiveTransaction) else Success(connection.value)
    }

    /** `__aenter__`: without a pool, fails and touches nothing; otherwise
        borrows a connection that was not borrowed and opens a transaction on
        it. */
    method Enter() returns (r: Outcome<Error>)
      requires Valid()
      modifies this, db, db.store
      ensures Valid()
      ensures !old(db.initialized) ==>
                r == Fail(PoolNotInitialized) && unchanged(this) && unchanged(db) && unchanged(db.store)
      ensures old(db.initialized) ==>
                && r == Pass && connection.Some?
                && connection.value !in old(db.borrowed)
                && db.borrowed == old(db.borrowed) + {connection.value}
                && db.free == old(db.free) - {connection.value}
                && db.initialized
                && db.store.pending == old(db.store.pending)[connection.value := NoRows]
                && db.store.committed == old(db.store.committed)
                && db.store.log == old(db.store.log) + [BeginStatement]
    {
      if !db.initialized {
        return Fail(PoolNotInitialized);
      }
      var c := db.Acquire();
      connection := Some(c);
      transaction := Some(Transaction(c));
      db.store.Begin(c);
      r := Pass;
    }

    /** `commit`: a no-op without a transaction. */
    method Commit(fault: bool) returns (r: Outcome<Error>)
      requires Valid()
      modifies db.store
      ensures Valid()
      ensures transaction.None? ==> r == Pass && unchanged(db.store)
      ensures transaction.Some? ==>
                var c := transaction.value.conn;
                && db.store.pending == old(db.store.pending) - {c}
                && db.store.committed == (if c in old(db.store.pending) && !fault
                                          then Append(old(db.store.committed), old(db.store.pending)[c])
                                          else old(db.store.committed))
                && db.store.log == old(db.store.log) + (if c in old(db.store.pending) then [CommitStatement] else [])
                && r == (if c !in old(db.store.pending) then Fail(TransactionNotActive)
                         else if fault then Fail(ServerFault) else Pass)
    {
      r := Pass;
      if transaction.Some? {
        r := db.store.Commit(transaction.value.conn, fault);
      }
    }

    /** `rollback`: a no-op without a transaction. */
    method Rollback(fault: bool) returns (r: Outcome<Error>)
      requires Valid()
      modifies db.store
      ensures Valid()
      ensures transaction.None? ==> r == Pass && unchanged(db.store)
      ensures transaction.Some? ==>
                var c := transaction.value.conn;
                && db.store.pending == old(db.store.pending) - {c}
                && db.store.committed == old(db.store.committed)
                && db.store.log == old(db.store.log) + (if c in old(db.store.pending) then [RollbackStatement] else [])
                && r == (if c !in old(db.store.pending) then Fail(TransactionNotActive)
                         else if fault then Fail(ServerFault) else Pass)
    {
      r := Pass;
      if transaction.Some? {
        r := db.store.Rollback(transaction.value.conn, fault);
      }
    }

    /** `__aexit__`: rolls back when the scope raised and commits otherwise
        (exactly one of the two reaches the server), then, whatever that
        returned, gives the connection back to the pool and clears both
        fields. The result is the commit's or rollback's own failure, if
        any. */
    method Exit(raised: bool, fault: bool) returns (r: Outcome<Error>)
      requires Valid()
      modifies this, db, db.store
      ensures Valid() && connection == None && transaction == None
      ensures db.initialized == old(db.initialized)
      ensures old(connection).None? ==> r == Pass && unchanged(db) && unchanged(db.store)
      ensures old(connection).Some? ==>
                var c := old(connection).value;
                && db.borrowed == (if old(db.initialized) then old(db.borrowed) - {c} else old(db.borrowed))
                && db.free == (if old(db.initialized) then old(db.free) + {c} else old(db.free))
                && db.store.pending == old(db.store.pending) - {c}
                && db.store.committed == (if !raised && !fault && c in old(db.store.pending)
                                          then Append(old(db.store.committed), old(db.store.pending)[c])
                                          else old(db.store.committed))
                && db.store.log == old(db.store.log)
                     + (if c !in old(db.store.pending) then []
                        else if raised then [RollbackStatement] else [CommitStatement])
                && r == (if c !in old(db.store.pending) then Fail(TransactionNotActive)
                         else if fault then Fail(ServerFault) else Pass)
    {
      // try
      if raised {
        r := Rollback(fault);
      } else {
        r := Commit(fault);
      }
      // finally
      if connection.Some? {
        if db.initialized {
          db.Release(connection.value);
        }
        connection := None;
        transaction := None;
      }
    }
  }
}
