/** `QueryRepositoryImpl` (app/infrastructure/database/repositories/query_repository_impl.py):
    recorded queries as rows of `case_queries`, and the server's answer to
    `WHERE case_id = $1 ORDER BY executed_at ASC`. */
module QueryRepository {
  import opened Primitives
  import opened Errors
  import opened Entities
  import opened Storage

  /** The nine values `save` binds, in column order. */
  function QueryToRow(q: CaseQuery): QueryRow {
    QueryRow(q.id, q.caseId, q.databaseName, q.schemaName, q.queryText, q.executionTimeMs,
             q.rowsAffected, q.executedAt, q.executedBy)
  }

  /** `_map_to_entity`: every column copied, nothing parsed. */
  function QueryFromRow(row: QueryRow): CaseQuery {
    CaseQuery(row.id, row.caseId, row.databaseName, row.schemaName, row.queryText,
              row.executionTimeMs, row.rowsAffected, row.executedAt, row.executedBy)
  }

  /** The two mappings are inverse bijections. */
  lemma QueryMappingRoundTrip(q: CaseQuery, row: QueryRow)
    ensures QueryFromRow(QueryToRow(q)) == q
    ensures QueryToRow(QueryFromRow(row)) == row
  {
  }

  /** The `values` list `save_many` builds. */
  function QueryRows(qs: seq<CaseQuery>): seq<QueryRow> {
    seq(|qs|, k requires 0 <= k < |qs| => QueryToRow(qs[k]))
  }

  /** The list comprehension of `get_by_case_id`. */
  function QueriesFromRows(rows: seq<QueryRow>): seq<CaseQuery> {
    seq(|rows|, k requires 0 <= k < |rows| => QueryFromRow(rows[k]))
  }

  /** Reading back what was written gives the same queries. */
  lemma RowsRoundTrip(qs: seq<CaseQuery>)
    ensures QueriesFromRows(QueryRows(qs)) == qs
  {
    var back := QueriesFromRows(QueryRows(qs));
    forall k | 0 <= k < |qs| ensures back[k] == qs[k] {
      QueryMappingRoundTrip(qs[k], QueryRows(qs)[k]);
    }
  }

  /** Reading rows back commutes with concatenating them. */
  lemma QueriesFromRowsAppend(a: seq<QueryRow>, b: seq<QueryRow>)
    ensures QueriesFromRows(a + b) == QueriesFromRows(a) + QueriesFromRows(b)
  {
  }

  /** Rows that are a rearrangement of each other read back as queries that
      are a rearrangement of each other. */
  lemma {:induction false} QueriesFromPermutedRows(x: seq<QueryRow>, y: seq<QueryRow>)
    requires multiset(x) == multiset(y)
    ensures multiset(QueriesFromRows(x)) == multiset(QueriesFromRows(y))
    decreases |x|
  {
    if |x| == 0 {
      assert |multiset(y)| == 0;
    } else {
      var e := x[0];
      assert e in multiset(y);
      var i :| 0 <= i < |y| && y[i] == e;
      var rest := y[..i] + y[i + 1..];
      assert y == y[..i] + [e] + y[i + 1..];
      assert x == [e] + x[1..];
      assert multiset(y) == multiset(y[..i]) + multiset{e} + multiset(y[i + 1..]);
      assert multiset(rest) == multiset(y[..i]) + multiset(y[i + 1..]);
      assert multiset(x) == multiset{e} + multiset(x[1..]);
      assert multiset(x[1..]) == multiset(x) - multiset{e};
      assert multiset(rest) == multiset(y) - multiset{e};
      QueriesFromPermutedRows(x[1..], rest);
      QueriesFromRowsAppend([e], x[1..]);
      QueriesFromRowsAppend(y[..i] + [e], y[i + 1..]);
      QueriesFromRowsAppend(y[..i], [e]);
      QueriesFromRowsAppend(y[..i], y[i + 1..]);
    }
  }

  /** `WHERE case_id = $1`, table order kept. */
  function FilterByCase(rows: seq<QueryRow>, caseId: Uuid): (r: seq<QueryRow>)
    ensures forall k :: 0 <= k < |r| ==> r[k].caseId == caseId
    ensures forall x :: x in rows && x.caseId == caseId ==> x in r
    ensures multiset(r) <= multiset(rows)
  {
    if |rows| == 0 then []
    else
      assert rows == [rows[0]] + rows[1..];
      if rows[0].caseId == caseId then [rows[0]] + FilterByCase(rows[1..], caseId)
      else FilterByCase(rows[1..], caseId)
  }

  /** Filtering distributes over the concatenation of two tables. */
  lemma {:induction false} FilterAppend(a: seq<QueryRow>, b: seq<QueryRow>, caseId: Uuid)
    ensures FilterByCase(a + b, caseId) == FilterByCase(a, caseId) + FilterByCase(b, caseId)
  {
    if |a| > 0 {
      assert (a + b)[0] == a[0];
      assert (a + b)[1..] == a[1..] + b;
      FilterAppend(a[1..], b, caseId);
    } else {
      assert a + b == b;
    }
  }

  /** Rows all of the case pass the filter unchanged. */
  lemma {:induction false} FilterKeepsOwn(rows: seq<QueryRow>, caseId: Uuid)
    requires forall k :: 0 <= k < |rows| ==> rows[k].caseId == caseId
    ensures FilterByCase(rows, caseId) == rows
  {
    if |rows| > 0 {
      FilterKeepsOwn(rows[1..], caseId);
      assert rows == [rows[0]] + rows[1..];
    }
  }

  /** Rows none of which belong to the case leave nothing. */
  lemma {:induction false} FilterDropsOthers(rows: seq<QueryRow>, caseId: Uuid)
    requires forall k :: 0 <= k < |rows| ==> rows[k].caseId != caseId
    ensures FilterByCase(rows, caseId) == []
  {
    if |rows| > 0 {
      FilterDropsOthers(rows[1..], caseId);
    }
  }

  predicate SortedByExecutedAt(rows: seq<QueryRow>) {
    forall i, j :: 0 <= i < j < |rows| ==> rows[i].executedAt <= rows[j].executedAt
  }

  /** No two rows share an `executed_at`, and the times increase. */
  predicate StrictlySortedByExecutedAt(rows: seq<QueryRow>) {
    forall i, j :: 0 <= i < j < |rows| ==> rows[i].executedAt < rows[j].executedAt
  }

  /** Rows strictly ordered by `executed_at` have a single ordering by
      `executed_at`: any ordered rearrangement of them is them, whichever way
      ties would have been broken. */
  lemma {:induction false} OnlyOrdering(x: seq<QueryRow>, y: seq<QueryRow>)
    requires SortedByExecutedAt(x) && StrictlySortedByExecutedAt(y)
    requires multiset(x) == multiset(y)
    ensures x == y
    decreases |y|
  {
    if |y| == 0 {
      assert |multiset(x)| == 0;
    } else {
      FirstOfOrdering(x, y);
      assert x == [x[0]] + x[1..];
      assert y == [y[0]] + y[1..];
      assert multiset(x[1..]) == multiset(x) - multiset{x[0]};
      assert multiset(y[1..]) == multiset(y) - multiset{y[0]};
      OrderedTails(x, y);
      OnlyOrdering(x[1..], y[1..]);
    }
  }

  /** Both orderings start with the earliest row. */
  lemma FirstOfOrdering(x: seq<QueryRow>, y: seq<QueryRow>)
    requires SortedByExecutedAt(x) && StrictlySortedByExecutedAt(y)
    requires multiset(x) == multiset(y) && |y| > 0
    ensures |x| > 0 && x[0] == y[0]
  {
    assert y[0] in multiset(x);
    var i :| 0 <= i < |x| && x[i] == y[0];
    assert forall k :: 0 < k < |y| ==> y[0].executedAt < y[k].executedAt;
    assert x[0] in multiset(y);
    var j :| 0 <= j < |y| && y[j] == x[0];
    assert x[0].executedAt <= y[0].executedAt by {
      if i > 0 {
        assert x[0].executedAt <= x[i].executedAt;
      }
    }
  }

  /** Dropping the first row keeps both orders. */
  lemma OrderedTails(x: seq<QueryRow>, y: seq<QueryRow>)
    requires SortedByExecutedAt(x) && StrictlySortedByExecutedAt(y)
    requires |x| > 0 && |y| > 0
    ensures SortedByExecutedAt(x[1..]) && StrictlySortedByExecutedAt(y[1..])
  {
    var xs, ys := x[1..], y[1..];
    forall i, j | 0 <= i < j < |xs| ensures xs[i].executedAt <= xs[j].executedAt {
      assert xs[i] == x[i + 1] && xs[j] == x[j + 1];
    }
    forall i, j | 0 <= i < j < |ys| ensures ys[i].executedAt < ys[j].executedAt {
      assert ys[i] == y[i + 1] && ys[j] == y[j + 1];
    }
  }

  /** Places `x` after every row not later than it. */
  function InsertByExecutedAt(x: QueryRow, rows: seq<QueryRow>): (r: seq<QueryRow>)
    requires SortedByExecutedAt(rows)
    ensures SortedByExecutedAt(r)
    ensures multiset(r) == multiset(rows) + multiset{x}
  {
    if |rows| == 0 || rows[|rows| - 1].executedAt <= x.executedAt then rows + [x]
    else
      var init, last := rows[..|rows| - 1], rows[|rows| - 1];
      assert rows == init + [last];
      var front := InsertByExecutedAt(x, init);
      BoundedByLast(front, init, x, last.executedAt);
      front + [last]
  }

  /** A rearrangement of rows and `x`, none later than `bound`, has no row
      later than `bound`. */
  lemma BoundedByLast(front: seq<QueryRow>, rows: seq<QueryRow>, x: QueryRow, bound: Timestamp)
    requires multiset(front) == multiset(rows) + multiset{x}
    requires forall k :: 0 <= k < |rows| ==> rows[k].executedAt <= bound
    requires x.executedAt <= bound
    ensures forall k :: 0 <= k < |front| ==> front[k].executedAt <= bound
  {
    forall k | 0 <= k < |front| ensures front[k].executedAt <= bound {
      assert front[k] in multiset(rows) + multiset{x};
      if front[k] != x {
        assert front[k] in multiset(rows);
        var j :| 0 <= j < |rows| && rows[j] == front[k];
      }
    }
  }

  /** `ORDER BY executed_at ASC`. Rows with equal times keep their table
      order. */
  function SortByExecutedAt(rows: seq<QueryRow>): (r: seq<QueryRow>)
    ensures SortedByExecutedAt(r)
    ensures multiset(r) == multiset(rows)
  {
    if |rows| == 0 then []
    else
      assert rows == rows[..|rows| - 1] + [rows[|rows| - 1]];
      InsertByExecutedAt(rows[|rows| - 1], SortByExecutedAt(rows[..|rows| - 1]))
  }

  /** Rows already in order come back as they are. */
  lemma {:induction false} SortKeepsSorted(rows: seq<QueryRow>)
    requires SortedByExecutedAt(rows)
    ensures SortByExecutedAt(rows) == rows
  {
    if |rows| > 0 {
      var init := rows[..|rows| - 1];
      assert SortedByExecutedAt(init);
      SortKeepsSorted(init);
      assert init + [rows[|rows| - 1]] == rows;
      assert SortByExecutedAt(rows) == InsertByExecutedAt(rows[|rows| - 1], init);
    }
  }

  /** The rows `get_by_case_id` fetches from a table. */
  function QueriesOf(rows: seq<QueryRow>, caseId: Uuid): seq<QueryRow> {
    SortByExecutedAt(FilterByCase(rows, caseId))
  }

  /** What `get_by_case_id` returns: exactly the rows of the case, ordered by
      `executed_at`. */
  lemma QueriesOfAreTheCasesRows(rows: seq<QueryRow>, caseId: Uuid)
    ensures SortedByExecutedAt(QueriesOf(rows, caseId))
    ensures forall k :: 0 <= k < |QueriesOf(rows, caseId)| ==> QueriesOf(rows, caseId)[k].caseId == caseId
    ensures forall x :: x in rows && x.caseId == caseId <==> x in QueriesOf(rows, caseId)
  {
    var f := FilterByCase(rows, caseId);
    var r := QueriesOf(rows, caseId);
    assert multiset(r) == multiset(f);
    forall k | 0 <= k < |r| ensures r[k].caseId == caseId {
      assert r[k] in multiset(f);
      var j :| 0 <= j < |f| && f[j] == r[k];
    }
    forall x | x in r ensures x in rows && x.caseId == caseId {
      assert x in multiset(f);
      assert x in multiset(rows);
      var j :| 0 <= j < |f| && f[j] == x;
    }
    forall x | x in rows && x.caseId == caseId ensures x in r {
      assert x in multiset(f);
    }
  }

  /** The number of rows of the table that belong to case `caseId`. */
  function QueryCount(rows: seq<QueryRow>, caseId: Uuid): nat {
    if |rows| == 0 then 0
    else (if rows[0].caseId == caseId then 1 else 0) + QueryCount(rows[1..], caseId)
  }

  /** The filter keeps one row per row of the case. */
  lemma {:induction false} FilterCounts(rows: seq<QueryRow>, caseId: Uuid)
    ensures |FilterByCase(rows, caseId)| == QueryCount(rows, caseId)
  {
    if |rows| > 0 {
      FilterCounts(rows[1..], caseId);
    }
  }

  /** `get_by_case_id` returns as many queries as the table holds rows of
      the case. */
  lemma QueriesOfCount(rows: seq<QueryRow>, caseId: Uuid)
    ensures |QueriesOf(rows, caseId)| == QueryCount(rows, caseId)
  {
    var f := FilterByCase(rows, caseId);
    FilterCounts(rows, caseId);
    assert |multiset(SortByExecutedAt(f))| == |multiset(f)|;
  }

  /** A batch of one case's rows, appended to a table that holds none of
      that case's rows, is read back as that batch ordered by `executed_at`. */
  lemma SavedQueriesReadBackSorted(existing: seq<QueryRow>, batch: seq<QueryRow>, caseId: Uuid)
    requires forall k :: 0 <= k < |existing| ==> existing[k].caseId != caseId
    requires forall k :: 0 <= k < |batch| ==> batch[k].caseId == caseId
    ensures QueriesOf(existing + batch, caseId) == SortByExecutedAt(batch)
  {
    FilterAppend(existing, batch, caseId);
    FilterDropsOthers(existing, caseId);
    FilterKeepsOwn(batch, caseId);
    assert FilterByCase(existing + batch, caseId) == batch;
  }

  /** Queries in `executed_at` order. */
  predicate InTimeOrder(qs: seq<CaseQuery>) {
    forall i, j :: 0 <= i < j < |qs| ==> qs[i].executedAt <= qs[j].executedAt
  }

  /** The queries of such a batch are read back rearranged into time
      order. */
  lemma SavedQueriesReadBackPermuted(existing: seq<QueryRow>, qs: seq<CaseQuery>, caseId: Uuid)
    requires forall k :: 0 <= k < |existing| ==> existing[k].caseId != caseId
    requires forall k :: 0 <= k < |qs| ==> qs[k].caseId == caseId
    ensures var back := QueriesFromRows(QueriesOf(existing + QueryRows(qs), caseId));
            multiset(back) == multiset(qs) && InTimeOrder(back)
  {
    var batch := QueryRows(qs);
    assert forall k :: 0 <= k < |batch| ==> batch[k].caseId == caseId;
    SavedQueriesReadBackSorted(existing, batch, caseId);
    var sorted := SortByExecutedAt(batch);
    QueriesFromPermutedRows(sorted, batch);
    RowsRoundTrip(qs);
    var back := QueriesFromRows(sorted);
    forall i, j | 0 <= i < j < |back| ensures back[i].executedAt <= back[j].executedAt {
      assert back[i].executedAt == sorted[i].executedAt && back[j].executedAt == sorted[j].executedAt;
    }
  }

  /** Queries with strictly increasing `executed_at`. */
  predicate StrictlyInTimeOrder(qs: seq<CaseQuery>) {
    forall i, j :: 0 <= i < j < |qs| ==> qs[i].executedAt < qs[j].executedAt
  }

  /** The same batch, its times strictly increasing, is read back as it is,
      however the server orders rows of equal time. */
  lemma SavedQueriesReadBack(existing: seq<QueryRow>, batch: seq<QueryRow>, caseId: Uuid)
    requires forall k :: 0 <= k < |existing| ==> existing[k].caseId != caseId
    requires forall k :: 0 <= k < |batch| ==> batch[k].caseId == caseId
    requires StrictlySortedByExecutedAt(batch)
    ensures QueriesOf(existing + batch, caseId) == batch
  {
    SavedQueriesReadBackSorted(existing, batch, caseId);
    OnlyOrdering(SortByExecutedAt(batch), batch);
  }

  /** The queries of such a batch, created at strictly increasing times,
      are read back as they were written. */
  lemma SavedQueriesReadBackInOrder(existing: seq<QueryRow>, qs: seq<CaseQuery>, caseId: Uuid)
    requires forall k :: 0 <= k < |existing| ==> existing[k].caseId != caseId
    requires forall k :: 0 <= k < |qs| ==> qs[k].caseId == caseId
    requires StrictlyInTimeOrder(qs)
    ensures QueriesFromRows(QueriesOf(existing + QueryRows(qs), caseId)) == qs
  {
    var batch := QueryRows(qs);
    assert forall k :: 0 <= k < |batch| ==> batch[k] == QueryToRow(qs[k]);
    SavedQueriesReadBack(existing, batch, caseId);
    RowsRoundTrip(qs);
  }

  /** A case without rows reads back no queries. */
  lemma UnknownCaseHasNoQueries(rows: seq<QueryRow>, caseId: Uuid)
    requires forall k :: 0 <= k < |rows| ==> rows[k].caseId != caseId
    ensures QueriesOf(rows, caseId) == []
  {
    FilterDropsOthers(rows, caseId);
  }

  /** A batch of N rows of a case, saved beside any rows, makes `get_by_case_id`
      return N more queries for that case. */
  lemma BatchAddsToCount(existing: seq<QueryRow>, batch: seq<QueryRow>, caseId: Uuid)
    requires forall k :: 0 <= k < |batch| ==> batch[k].caseId == caseId
    ensures |QueriesOf(existing + batch, caseId)| == |QueriesOf(existing, caseId)| + |batch|
  {
    FilterAppend(existing, batch, caseId);
    FilterKeepsOwn(batch, caseId);
    QueriesOfCount(existing + batch, caseId);
    QueriesOfCount(existing, caseId);
    FilterCounts(existing + batch, caseId);
    FilterCounts(existing, caseId);
  }

  class QueryRepositoryImpl {
    const db: Pool
    const connection: Option<ConnId>

    constructor (db: Pool, connection: Option<ConnId>)
      ensures this.db == db && this.connection == connection
    {
      this.db := db;
      this.connection := connection;
    }

    /** The rows a statement of this repository sees. */
    function Visible(): Tables
      reads db, db.store
    {
      db.store.Visible(connection)
    }

    /** `save`: one single-row INSERT. */
    method Save(q: CaseQuery) returns (r: Outcome<Error>)
      requires db.Valid()
      modifies db.store
      ensures db.Valid()
      ensures connection.None? && !db.initialized ==>
                r == Fail(PoolNotInitialized) && unchanged(db.store)
      ensures connection.Some? || db.initialized ==>
                && db.store.log == old(db.store.log) + [InsertQuery(QueryToRow(q))]
                && (q.id in QueryIds(old(Visible()).queries) ==>
                      r == Fail(UniqueViolation) && db.store.committed == old(db.store.committed)
                      && db.store.pending == old(db.store.pending))
                && (q.id !in QueryIds(old(Visible()).queries) ==>
                      r == Pass && Visible() == Append(old(Visible()), Tables([], [QueryToRow(q)])))
      ensures db.store.pending.Keys == old(db.store.pending.Keys)
      ensures forall k :: k in db.store.pending && Some(k) != connection ==>
                db.store.pending[k] == old(db.store.pending[k])
      ensures connection.Some? && connection.value in old(db.store.pending) ==>
                db.store.committed == old(db.store.committed)
      ensures connection.Some? && connection.value in old(db.store.pending) && r == Pass ==>
                db.store.pending[connection.value] ==
                  Append(old(db.store.pending[connection.value]), Tables([], [QueryToRow(q)]))
    {
      if connection.None? && !db.initialized {
        return Fail(PoolNotInitialized);
      }
      r := db.store.InsertQueryRow(connection, QueryToRow(q));
    }

    /** `save_many`: nothing at all for an empty list, not even the pool
        check; otherwise one `executemany` that writes every row or none. */
    method SaveMany(qs: seq<CaseQuery>) returns (r: Outcome<Error>)
      requires db.Valid()
      modifies db.store
      ensures db.Valid()
      ensures |qs| == 0 ==> r == Pass && unchanged(db.store)
      ensures |qs| > 0 && connection.None? && !db.initialized ==>
                r == Fail(PoolNotInitialized) && unchanged(db.store)
      ensures |qs| > 0 && (connection.Some? || db.initialized) ==>
                && db.store.log == old(db.store.log) + [InsertQueries(QueryRows(qs))]
                && (!FreshQueryIds(old(Visible()).queries, QueryRows(qs)) ==>
                      r == Fail(UniqueViolation) && db.store.committed == old(db.store.committed)
                      && db.store.pending == old(db.store.pending))
                && (FreshQueryIds(old(Visible()).queries, QueryRows(qs)) ==>
                      r == Pass && Visible() == Append(old(Visible()), Tables([], QueryRows(qs))))
      ensures db.store.pending.Keys == old(db.store.pending.Keys)
      ensures forall k :: k in db.store.pending && Some(k) != connection ==>
                db.store.pending[k] == old(db.store.pending[k])
      ensures connection.Some? && connection.value in old(db.store.pending) ==>
                db.store.committed == old(db.store.committed)
      ensures connection.Some? && connection.value in old(db.store.pending) && r == Pass ==>
                db.store.pending[connection.value] ==
                  Append(old(db.store.pending[connection.value]), Tables([], QueryRows(qs)))
    {
      if |qs| == 0 {
        return Pass;
      }
      if connection.None? && !db.initialized {
        return Fail(PoolNotInitialized);
      }
      r := db.store.InsertQueryRows(connection, QueryRows(qs));
    }

    /** `get_by_case_id`: the case's queries in `executed_at` order. */
    method GetByCaseId(caseId: Uuid) returns (r: Result<seq<CaseQuery>, Error>)
      requires db.Valid()
      ensures connection.None? && !db.initialized ==> r == Failure(PoolNotInitialized)
      ensures connection.Some? || db.initialized ==>
                r == Success(QueriesFromRows(QueriesOf(Visible().queries, caseId)))
    {
      if connection.None? && !db.initialized {
        return Failure(PoolNotInitialized);
      }
      var rows := QueriesOf(Visible().queries, caseId);
      r := Success(QueriesFromRows(rows));
    }
  }
}
