/** The database as the core sees it: two tables of rows, one open
    transaction per connection at most, and the pool connections are
    borrowed from. SQL text and the wire protocol are not modelled; a
    statement is a value in the order the server receives it. */
module Storage {
  import opened Primitives
  import opened Errors

  /** A row of `support_cases`; the three enums are stored as their string
      values. */
  datatype CaseRow = CaseRow(
    id: Uuid,
    title: string,
    description: Option<string>,
    caseType: string,
    priority: string,
    status: string,
    createdBy: string,
    createdAt: Timestamp,
    updatedAt: Timestamp)

  /** A row of `case_queries`. */
  datatype QueryRow = QueryRow(
    id: Uuid,
    caseId: Uuid,
    databaseName: string,
    schemaName: string,
    queryText: string,
    executionTimeMs: Option<int>,
    rowsAffected: Option<int>,
    executedAt: Timestamp,
    executedBy: string)

  datatype Tables = Tables(cases: seq<CaseRow>, queries: seq<QueryRow>)

  const NoRows := Tables([], [])

  function Append(a: Tables, b: Tables): Tables {
    Tables(a.cases + b.cases, a.queries + b.queries)
  }

  /** What the server receives. */
  datatype Statement =
    | BeginStatement
    | InsertCase(row: CaseRow)
    | InsertQuery(queryRow: QueryRow)     // `execute` of one row
    | InsertQueries(rows: seq<QueryRow>)  // `executemany` of a batch
    | CommitStatement
    | RollbackStatement

  function CaseIds(rows: seq<CaseRow>): set<Uuid> {
    set k | 0 <= k < |rows| :: rows[k].id
  }

  function QueryIds(rows: seq<QueryRow>): set<Uuid> {
    set k | 0 <= k < |rows| :: rows[k].id
  }

  /** The primary-key condition for inserting `batch` beside `existing`. */
  predicate FreshQueryIds(existing: seq<QueryRow>, batch: seq<QueryRow>) {
    && (forall k :: 0 <= k < |batch| ==> batch[k].id !in QueryIds(existing))
    && (forall i, j :: 0 <= i < j < |batch| ==> batch[i].id != batch[j].id)
  }

  /** A case row written, then a batch of query rows: the same as writing
      both at once. */
  lemma AppendCaseThenQueries(t: Tables, row: CaseRow, rows: seq<QueryRow>)
    ensures Append(Append(t, Tables([row], [])), Tables([], rows)) == Append(t, Tables([row], rows))
  {
    assert t.cases + [row] + [] == t.cases + [row];
    assert t.queries + [] + rows == t.queries + rows;
  }

  /** Two transaction maps with the same connections that differ only at
      `c` are the same once `c` is removed. */
  lemma RemoveChanged(m: map<ConnId, Tables>, m2: map<ConnId, Tables>, c: ConnId)
    requires m2.Keys == m.Keys
    requires forall k :: k in m2 && k != c ==> m2[k] == m[k]
    ensures m2 - {c} == m - {c}
  {
    assert (m2 - {c}).Keys == (m - {c}).Keys;
  }

  /** The server's tables. `pending` holds, per connection with an open
      transaction, the rows written in it and not yet committed; a statement
      on a connection without one commits at once. */
  class Store {
    var committed: Tables
    var pending: map<ConnId, Tables>
    var log: seq<Statement>

    constructor (initial: Tables)
      ensures committed == initial && pending == map[] && log == []
    {
      committed := initial;
      pending := map[];
      log := [];
    }

    /** The rows a statement sent through `via` sees: those of its own open
        transaction on top of the committed ones; `None` is a pool
        connection outside any transaction. */
    function Visible(via: Option<ConnId>): Tables
      reads this
    {
      if via.Some? && via.value in pending then Append(committed, pending[via.value]) else committed
    }

    /** Adds rows where a statement through `via` puts them. */
    method Write(via: Option<ConnId>, rows: Tables)
      modifies this
      ensures via.Some? && via.value in old(pending) ==>
                pending == old(pending)[via.value := Append(old(pending)[via.value], rows)]
                && committed == old(committed)
      ensures !(via.Some? && via.value in old(pending)) ==>
                committed == Append(old(committed), rows) && pending == old(pending)
      ensures log == old(log)
      ensures Visible(via) == Append(old(Visible(via)), rows)
    {
      if via.Some? && via.value in pending {
        pending := pending[via.value := Append(pending[via.value], rows)];
      } else {
        committed := Append(committed, rows);
      }
    }

    /** `INSERT INTO support_cases`: refused when the id is already visible
        (insert only, never an update). */
    method InsertCaseRow(via: Option<ConnId>, row: CaseRow) returns (r: Outcome<Error>)
      modifies this
      ensures log == old(log) + [InsertCase(row)]
      ensures row.id in CaseIds(old(Visible(via)).cases) ==>
                r == Fail(UniqueViolation) && committed == old(committed) && pending == old(pending)
      ensures row.id !in CaseIds(old(Visible(via)).cases) ==>
                r == Pass && Visible(via) == Append(old(Visible(via)), Tables([row], []))
      ensures r == Pass && via.Some? && via.value in old(pending) ==>
                pending == old(pending)[via.value := Append(old(pending)[via.value], Tables([row], []))]
      ensures r == Pass && !(via.Some? && via.value in old(pending)) ==>
                committed == Append(old(committed), Tables([row], [])) && pending == old(pending)
      ensures pending.Keys == old(pending.Keys)
      ensures forall c :: c in pending && Some(c) != via ==> pending[c] == old(pending[c])
      ensures via.Some? && via.value in old(pending) ==> committed == old(committed)
    {
      log := log + [InsertCase(row)];
      if row.id in CaseIds(Visible(via).cases) {
        return Fail(UniqueViolation);
      }
      Write(via, Tables([row], []));
      r := Pass;
    }

    /** `execute` of `INSERT INTO case_queries` for one row. */
    method InsertQueryRow(via: Option<ConnId>, row: QueryRow) returns (r: Outcome<Error>)
      modifies this
      ensures log == old(log) + [InsertQuery(row)]
      ensures row.id in QueryIds(old(Visible(via)).queries) ==>
                r == Fail(UniqueViolation) && committed == old(committed) && pending == old(pending)
      ensures row.id !in QueryIds(old(Visible(via)).queries) ==>
                r == Pass && Visible(via) == Append(old(Visible(via)), Tables([], [row]))
      ensures r == Pass && via.Some? && via.value in old(pending) ==>
                pending == old(pending)[via.value := Append(old(pending)[via.value], Tables([], [row]))]
      ensures r == Pass && !(via.Some? && via.value in old(pending)) ==>
                committed == Append(old(committed), Tables([], [row])) && pending == old(pending)
      ensures pending.Keys == old(pending.Keys)
      ensures forall c :: c in pending && Some(c) != via ==> pending[c] == old(pending[c])
      ensures via.Some? && via.value in old(pending) ==> committed == old(committed)
    {
      log := log + [InsertQuery(row)];
      if row.id in QueryIds(Visible(via).queries) {
        return Fail(UniqueViolation);
      }
      Write(via, Tables([], [row]));
      r := Pass;
    }

    /** `executemany` of `INSERT INTO case_queries`: all rows or none. */
    method InsertQueryRows(via: Option<ConnId>, rows: seq<QueryRow>) returns (r: Outcome<Error>)
      modifies this
      ensures log == old(log) + [InsertQueries(rows)]
      ensures !FreshQueryIds(old(Visible(via)).queries, rows) ==>
                r == Fail(UniqueViolation) && committed == old(committed) && pending == old(pending)
      ensures FreshQueryIds(old(Visible(via)).queries, rows) ==>
                r == Pass && Visible(via) == Append(old(Visible(via)), Tables([], rows))
      ensures r == Pass && via.Some? && via.value in old(pending) ==>
                pending == old(pending)[via.value := Append(old(pending)[via.value], Tables([], rows))]
      ensures r == Pass && !(via.Some? && via.value in old(pending)) ==>
                committed == Append(old(committed), Tables([], rows)) && pending == old(pending)
      ensures pending.Keys == old(pending.Keys)
      ensures forall c :: c in pending && Some(c) != via ==> pending[c] == old(pending[c])
      ensures via.Some? && via.value in old(pending) ==> committed == old(committed)
    {
      log := log + [InsertQueries(rows)];
      if !FreshQueryIds(Visible(via).queries, rows) {
        return Fail(UniqueViolation);
      }
      Write(via, Tables([], rows));
      r := Pass;
    }

    /** Opens a transaction on connection `c`. */
    method Begin(c: ConnId)
      modifies this
      ensures pending == old(pending)[c := NoRows] && committed == old(committed)
      ensures log == old(log) + [BeginStatement]
    {
      pending := pending[c := NoRows];
      log := log + [BeginStatement];
    }

    /** COMMIT of the transaction on `c`. A transaction that is not open
        cannot be committed; a server fault aborts it. */
    method Commit(c: ConnId, fault: bool) returns (r: Outcome<Error>)
      modifies this
      ensures c !in old(pending) ==> r == Fail(TransactionNotActive) && unchanged(this)
      ensures c in old(pending) ==>
                && log == old(log) + [CommitStatement]
                && pending == old(pending) - {c}
                && committed == (if fault then old(committed) else Append(old(committed), old(pending)[c]))
                && r == (if fault then Fail(ServerFault) else Pass)
    {
      if c !in pending {
        return Fail(TransactionNotActive);
      }
      log := log + [CommitStatement];
      if fault {
        r := Fail(ServerFault);
      } else {
        committed := Append(committed, pending[c]);
        r := Pass;
      }
      pending := pending - {c};
    }

    /** ROLLBACK of the transaction on `c`: its writes are discarded whatever
        the server answers. */
    method Rollback(c: ConnId, fault: bool) returns (r: Outcome<Error>)
      modifies this
      ensures c !in old(pending) ==> r == Fail(TransactionNotActive) && unchanged(this)
      ensures c in old(pending) ==>
                && log == old(log) + [RollbackStatement]
                && pending == old(pending) - {c}
                && committed == old(committed)
                && r == (if fault then Fail(ServerFault) else Pass)
    {
      if c !in pending {
        return Fail(TransactionNotActive);
      }
      log := log + [RollbackStatement];
      pending := pending - {c};
      r := if fault then Fail(ServerFault) else Pass;
    }

    /** The reset a connection undergoes on its way back to the pool: an
        open transaction on it is abandoned. */
    method Reset(c: ConnId)
      modifies this
      ensures pending == old(pending) - {c} && committed == old(committed) && log == old(log)
    {
      pending := pending - {c};
    }
  }

  /** The connection pool behind `DatabaseConnection`. `initialized` is false
      while no pool has been created. Connections are numbered in the order
      the pool opens them. */
  class Pool {
    var initialized: bool
    var free: set<ConnId>
    var borrowed: set<ConnId>
    var created: nat
    const store: Store

    ghost predicate Valid()
      reads this, store
    {
      && free !! borrowed
      && (forall c :: c in free ==> c < created)
      && (forall c :: c in borrowed ==> c < created)
      && store.pending.Keys <= borrowed
    }

    constructor (store: Store, initialized: bool)
      requires store.pending == map[]
      ensures Valid() && this.store == store && this.initialized == initialized
      ensures free == {} && borrowed == {}
    {
      this.store := store;
      this.initialized := initialized;
      free := {};
      borrowed := {};
      created := 0;
    }

    /** `pool.acquire()`: a free connection, or a newly created one. */
    method Acquire() returns (c: ConnId)
      requires Valid() && initialized
      modifies this
      ensures Valid() && initialized
      ensures c !in old(borrowed) && borrowed == old(borrowed) + {c} && free == old(free) - {c}
    {
      if free != {} {
        c :| c in free;
        free := free - {c};
      } else {
        c := created;
        created := created + 1;
      }
      borrowed := borrowed + {c};
    }

    /** `pool.release(c)`: the connection is reset and becomes free. */
    method Release(c: ConnId)
      requires Valid() && c in borrowed
      modifies this, store
      ensures Valid() && initialized == old(initialized)
      ensures borrowed == old(borrowed) - {c} && free == old(free) + {c}
      ensures store.pending == old(store.pending) - {c}
      ensures store.committed == old(store.committed) && store.log == old(store.log)
    {
      store.Reset(c);
      borrowed := borrowed - {c};
      free := free + {c};
    }
  }
}
