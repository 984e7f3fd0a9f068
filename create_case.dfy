/** `CreateCaseUseCase` (app/application/use_cases/create_case.py): a case and
    its queries written in one transaction of the Unit of Work. `ids(0)` is
    the case's fresh identifier, `ids(k + 1)` that of the k-th query; `clock`
    supplies the successive readings of `datetime.utcnow`; `fault` is the
    server's answer to the final COMMIT or ROLLBACK. */
module CreateCase {
  import opened Primitives
  import opened Errors
  import opened ValueObjects
  import opened Entities
  import opened Storage
  import opened UnitOfWork
  import opened CaseRepository
  import opened QueryRepository

  /** One element of the `queries` argument: the three keys `execute` reads. */
  datatype QueryInput = QueryInput(databaseName: string, schemaName: string, queryText: string)

  /** The arguments of `execute`. */
  datatype CaseInput = CaseInput(
    title: string,
    description: Option<string>,
    caseType: string,
    priority: string,
    queries: seq<QueryInput>,
    createdBy: string)

  /** The successive readings of `datetime.utcnow` during one `execute`:
      `clock(n)` is the n-th. */
  type Clock = nat -> Timestamp

  /** The order in which `execute` reads the clock: the case's `created_at`
      and `updated_at` defaults first, then, for the k-th query, its
      `executed_at` default and the `updated_at` its `add_query` stamps. */
  const CreatedAtTick: nat := 0
  const UpdatedAtTick: nat := 1
  function ExecutedAtTick(k: nat): nat { 2 * k + 2 }
  function AddedAtTick(k: nat): nat { 2 * k + 3 }

  /** The header of a case once `add_query` has stamped `n` queries onto it:
      the same, except that after at least one query `updated_at` is the
      last stamp. */
  function Stamped(h: CaseHeader, n: nat, clock: Clock): CaseHeader {
    if n == 0 then h else h.(updatedAt := clock(AddedAtTick(n - 1)))
  }

  /** The `CaseQuery.create` call of the k-th loop iteration: the executor is
      the case's creator, and no timing or row count is recorded. */
  function QueryFor(caseId: Uuid, input: QueryInput, k: nat, createdBy: string,
                    ids: nat -> Uuid, clock: Clock): Result<CaseQuery, ValidationFailure>
  {
    CreateQuery(ids(k + 1), clock(ExecutedAtTick(k)), caseId, input.databaseName, input.schemaName, input.queryText,
                createdBy, None, None)
  }

  /** Every value of a run of attempts, or the failure of the first attempt
      that fails. */
  function CollectAll<T, E>(rs: seq<Result<T, E>>): Result<seq<T>, E> {
    if |rs| == 0 then Success([])
    else
      match CollectAll(rs[..|rs| - 1])
      case Failure(e) => Failure(e)
      case Success(vs) =>
        match rs[|rs| - 1]
        case Failure(e) => Failure(e)
        case Success(v) => Success(vs + [v])
  }

  /** What `CollectAll` means: on success, the k-th value is the k-th
      attempt's; on failure, the failure is the first failing attempt's. */
  lemma {:induction false} CollectAllSpec<T, E>(rs: seq<Result<T, E>>)
    ensures CollectAll(rs).Success? ==>
              && |CollectAll(rs).value| == |rs|
              && forall k :: 0 <= k < |rs| ==> rs[k] == Success(CollectAll(rs).value[k])
    ensures CollectAll(rs).Failure? ==>
              exists k :: 0 <= k < |rs| && rs[k] == Failure(CollectAll(rs).error)
                && forall j :: 0 <= j < k ==> rs[j].Success?
  {
    if |rs| > 0 {
      var n := |rs| - 1;
      var prefix := rs[..n];
      CollectAllSpec(prefix);
      assert forall k :: 0 <= k < n ==> prefix[k] == rs[k];
      match CollectAll(prefix)
      case Failure(e) =>
        var k :| 0 <= k < n && prefix[k] == Failure(e) && forall j :: 0 <= j < k ==> prefix[j].Success?;
        assert rs[k] == Failure(CollectAll(rs).error);
      case Success(vs) =>
        match rs[n]
        case Failure(e) =>
        case Success(v) =>
          assert CollectAll(rs).value == vs + [v];
    }
  }

  /** A run whose first `i` attempts succeed and whose attempt `i` fails
      ends with that failure. */
  lemma StopsAtFirstFailure<T, E>(rs: seq<Result<T, E>>, i: nat)
    requires i < |rs|
    requires forall j :: 0 <= j < i ==> rs[j].Success?
    requires rs[i].Failure?
    ensures CollectAll(rs) == Failure(rs[i].error)
  {
    CollectAllSpec(rs);
    if CollectAll(rs).Failure? {
      var k :| 0 <= k < |rs| && rs[k] == Failure(CollectAll(rs).error)
               && forall j :: 0 <= j < k ==> rs[j].Success?;
      assert k == i;
    }
  }

  /** A run of successes collects their values. */
  lemma {:induction false} AllSucceed<T, E>(rs: seq<Result<T, E>>, vs: seq<T>)
    requires |vs| == |rs|
    requires forall k :: 0 <= k < |rs| ==> rs[k] == Success(vs[k])
    ensures CollectAll(rs) == Success(vs)
  {
    if |rs| > 0 {
      var n := |rs| - 1;
      AllSucceed(rs[..n], vs[..n]);
      assert vs[..n] + [vs[n]] == vs;
    }
  }

  /** A run succeeds exactly when every attempt does. */
  lemma CollectAllSucceedsIffAll<T, E>(rs: seq<Result<T, E>>)
    ensures CollectAll(rs).Success? <==> forall k :: 0 <= k < |rs| ==> rs[k].Success?
  {
    CollectAllSpec(rs);
  }

  /** The `CaseQuery.create` call of each iteration of the loop. */
  function QueryAttempts(caseId: Uuid, inputs: seq<QueryInput>, createdBy: string,
                         ids: nat -> Uuid, clock: Clock): (rs: seq<Result<CaseQuery, ValidationFailure>>)
    ensures |rs| == |inputs|
  {
    if |inputs| == 0 then []
    else
      var n := |inputs| - 1;
      QueryAttempts(caseId, inputs[..n], createdBy, ids, clock) + [QueryFor(caseId, inputs[n], n, createdBy, ids, clock)]
  }

  /** The k-th attempt is the k-th input's `CaseQuery.create`. */
  lemma {:induction false} QueryAttemptsAt(caseId: Uuid, inputs: seq<QueryInput>, createdBy: string,
                                           ids: nat -> Uuid, clock: Clock)
    ensures forall k :: 0 <= k < |inputs| ==>
              QueryAttempts(caseId, inputs, createdBy, ids, clock)[k] == QueryFor(caseId, inputs[k], k, createdBy, ids, clock)
  {
    if |inputs| > 0 {
      var n := |inputs| - 1;
      QueryAttemptsAt(caseId, inputs[..n], createdBy, ids, clock);
      assert forall k :: 0 <= k < n ==> inputs[..n][k] == inputs[k];
    }
  }

  /** The loop over `queries`, on values: the run of its attempts, each
      query built in turn up to the first that does not validate. */
  function BuildQueries(caseId: Uuid, inputs: seq<QueryInput>, createdBy: string,
                        ids: nat -> Uuid, clock: Clock): Result<seq<CaseQuery>, ValidationFailure>
  {
    CollectAll(QueryAttempts(caseId, inputs, createdBy, ids, clock))
  }

  /** The first statements of the body: the two enum constructors, then
      `SupportCase.create` with the fresh id `ids(0)`. */
  function PrepareCase(a: CaseInput, ids: nat -> Uuid, clock: Clock): Result<CaseHeader, Error> {
    match ParseCaseType(a.caseType)
    case None => Failure(UnknownEnumValue(a.caseType))
    case Some(t) =>
      match ParsePriority(a.priority)
      case None => Failure(UnknownEnumValue(a.priority))
      case Some(p) =>
        match CreateCaseHeader(ids(0), clock(CreatedAtTick), clock(UpdatedAtTick), a.title, t, p, a.createdBy, a.description)
        case Failure(v) => Failure(Validation(v))
        case Success(h) => Success(h)
  }

  /** The body of the `async with` block on a transaction that sees
      `visible`: the first error it raises, or the case and its queries. An
      unknown type or priority is raised before the case is built; a
      duplicate case id before any query is validated. */
  function BodyOutcome(visible: Tables, a: CaseInput, ids: nat -> Uuid, clock: Clock)
    : Result<(CaseHeader, seq<CaseQuery>), Error>
  {
    match PrepareCase(a, ids, clock)
    case Failure(e) => Failure(e)
    case Success(h) => PersistOutcome(visible, h, BuildQueries(h.id, a.queries, a.createdBy, ids, clock))
  }

  /** The rest of the body once the case `h` is built, `built` being what
      its query loop yields: the case's INSERT, then the loop, then the
      batch INSERT. */
  function PersistOutcome(visible: Tables, h: CaseHeader, built: Result<seq<CaseQuery>, ValidationFailure>)
    : Result<(CaseHeader, seq<CaseQuery>), Error>
  {
    if h.id in CaseIds(visible.cases) then Failure(UniqueViolation)
    else
      match QueriesOutcome(visible.queries, built)
      case Failure(e) => Failure(e)
      case Success(qs) => Success((h, qs))
  }

  /** The query loop's result `built`, then the batch INSERT that follows it
      when there is at least one query, against the query rows `existing`. */
  function QueriesOutcome(existing: seq<QueryRow>, built: Result<seq<CaseQuery>, ValidationFailure>)
    : Result<seq<CaseQuery>, Error>
  {
    match built
    case Failure(v) => Failure(Validation(v))
    case Success(qs) =>
      if |qs| > 0 && !FreshQueryIds(existing, QueryRows(qs)) then Failure(UniqueViolation)
      else Success(qs)
  }

  /** A query built in iteration `k` is well formed, carries the identifier
      reserved for that position, belongs to the case, and was executed by
      the case's creator at the clock reading of its own default. */
  lemma QueryForShape(caseId: Uuid, input: QueryInput, k: nat, createdBy: string,
                      ids: nat -> Uuid, clock: Clock)
    requires QueryFor(caseId, input, k, createdBy, ids, clock).Success?
    ensures var q := QueryFor(caseId, input, k, createdBy, ids, clock).value;
            && WellFormedQuery(q) && q.id == ids(k + 1) && q.caseId == caseId
            && q.executedBy == createdBy && q.executedAt == clock(ExecutedAtTick(k))
  {
    CreatedQueryIsWellFormed(ids(k + 1), clock(ExecutedAtTick(k)), caseId, input.databaseName, input.schemaName,
                             input.queryText, createdBy, None, None);
  }

  /** Every query the loop builds has the shape `QueryForShape` gives. */
  lemma BuiltQueriesShape(caseId: Uuid, inputs: seq<QueryInput>, createdBy: string,
                          ids: nat -> Uuid, clock: Clock)
    requires BuildQueries(caseId, inputs, createdBy, ids, clock).Success?
    ensures var qs := BuildQueries(caseId, inputs, createdBy, ids, clock).value;
            && |qs| == |inputs|
            && forall k :: 0 <= k < |qs| ==>
                 && WellFormedQuery(qs[k]) && qs[k].id == ids(k + 1) && qs[k].caseId == caseId
                 && qs[k].executedBy == createdBy && qs[k].executedAt == clock(ExecutedAtTick(k))
  {
    var rs := QueryAttempts(caseId, inputs, createdBy, ids, clock);
    CollectAllSpec(rs);
    QueryAttemptsAt(caseId, inputs, createdBy, ids, clock);
    var qs := CollectAll(rs).value;
    forall k | 0 <= k < |qs|
      ensures && WellFormedQuery(qs[k]) && qs[k].id == ids(k + 1) && qs[k].caseId == caseId
              && qs[k].executedBy == createdBy && qs[k].executedAt == clock(ExecutedAtTick(k))
    {
      QueryForShape(caseId, inputs[k], k, createdBy, ids, clock);
    }
  }

  /** What a successful creation yields: an open, well-formed case, and one
      well-formed query per input, in input order, each owned by the case and
      executed by its creator. The timestamps are the readings the clock
      gave, in the order `execute` takes them. */
  lemma CreatedCaseShape(visible: Tables, a: CaseInput, ids: nat -> Uuid, clock: Clock)
    requires BodyOutcome(visible, a, ids, clock).Success?
    ensures var (h, qs) := BodyOutcome(visible, a, ids, clock).value;
            && WellFormedHeader(h) && h.id == ids(0) && h.status == Open
            && h.createdAt == clock(CreatedAtTick) && h.updatedAt == clock(UpdatedAtTick) && h.createdBy == a.createdBy
            && h.id !in CaseIds(visible.cases)
            && |qs| == |a.queries|
            && forall k :: 0 <= k < |qs| ==>
                 && WellFormedQuery(qs[k]) && qs[k].id == ids(k + 1) && qs[k].caseId == h.id
                 && qs[k].executedBy == a.createdBy && qs[k].executedAt == clock(ExecutedAtTick(k))
  {
    var h := PrepareCase(a, ids, clock).value;
    var t := ParseCaseType(a.caseType).value;
    var p := ParsePriority(a.priority).value;
    CreatedCaseIsWellFormed(ids(0), clock(CreatedAtTick), clock(UpdatedAtTick), a.title, t, p, a.createdBy, a.description, h);
    BuiltQueriesShape(h.id, a.queries, a.createdBy, ids, clock);
  }

  class CreateCaseUseCase {
    const caseRepository: CaseRepositoryImpl
    const queryRepository: QueryRepositoryImpl
    const uow: PostgreSQLUnitOfWork

    /** All three share one pool, and the Unit of Work is between scopes. */
    ghost predicate Valid()
      reads this, uow, uow.db, uow.db.store
    {
      && uow.Valid() && uow.connection.None?
      && caseRepository.db == uow.db && queryRepository.db == uow.db
    }

    constructor (caseRepository: CaseRepositoryImpl, queryRepository: QueryRepositoryImpl,
                 uow: PostgreSQLUnitOfWork)
      requires uow.Valid() && uow.connection.None?
      requires caseRepository.db == uow.db && queryRepository.db == uow.db
      ensures Valid()
      ensures this.caseRepository == caseRepository && this.queryRepository == queryRepository
      ensures this.uow == uow
    {
      this.caseRepository := caseRepository;
      this.queryRepository := queryRepository;
      this.uow := uow;
    }

    /** `execute`: outside a pool, nothing happens. Otherwise one
        transaction: what the body raises is rolled back and reported, unless
        the rollback itself fails; a body that completes is committed and
        its case returned, unless the commit fails. Either way the
        connection goes back to the pool, and no other connection's
        transaction is touched. The committed case row is the case as it was
        built; the returned case has since been stamped by each `add_query`,
        so differs from it in `updated_at` when there are queries. */
    method Execute(a: CaseInput, ids: nat -> Uuid, clock: Clock, fault: bool)
      returns (r: Result<SupportCase, Error>)
      requires Valid()
      modifies uow, uow.db, uow.db.store
      ensures Valid()
      ensures !old(uow.db.initialized) ==>
                r == Failure(PoolNotInitialized) && unchanged(uow.db) && unchanged(uow.db.store)
      ensures old(uow.db.initialized) ==>
                && uow.db.borrowed == old(uow.db.borrowed)
                && uow.db.store.pending == old(uow.db.store.pending)
                && match BodyOutcome(old(uow.db.store.committed), a, ids, clock)
                   case Failure(e) =>
                     && r == Failure(if fault then ServerFault else e)
                     && uow.db.store.committed == old(uow.db.store.committed)
                   case Success((h, qs)) =>
                     if fault then
                       r == Failure(ServerFault) && uow.db.store.committed == old(uow.db.store.committed)
                     else
                       && r.Success? && fresh(r.value) && r.value.Header() == Stamped(h, |qs|, clock)
                       && r.value.queries == qs
                       && uow.db.store.committed ==
                            Append(old(uow.db.store.committed), Tables([CaseToRow(h)], QueryRows(qs)))
                       && uow.db.store.log == old(uow.db.store.log) + [BeginStatement]
                            + [InsertCase(CaseToRow(h))]
                            + (if |qs| > 0 then [InsertQueries(QueryRows(qs))] else [])
                            + [CommitStatement]
    {
      var entered := uow.Enter();
      if entered.Fail? {
        return Failure(entered.error);
      }
      var conn := uow.GetConnection().value;
      ghost var o;
      r, o := Run(conn, a, ids, clock, fault);
    }

    /** The `async with` block once entered on `conn`: the body, then
        `__aexit__` told whether the body raised. */
    method Run(conn: ConnId, a: CaseInput, ids: nat -> Uuid, clock: Clock, fault: bool)
      returns (r: Result<SupportCase, Error>, ghost o: Result<(CaseHeader, seq<CaseQuery>), Error>)
      requires uow.Valid() && uow.connection == Some(conn) && uow.db.initialized
      requires conn in uow.db.store.pending && uow.db.store.pending[conn] == NoRows
      modifies uow, uow.db, uow.db.store
      ensures uow.Valid() && uow.connection.None? && uow.db.initialized
      ensures uow.db.borrowed == old(uow.db.borrowed) - {conn}
      ensures uow.db.store.pending == old(uow.db.store.pending) - {conn}
      ensures o == BodyOutcome(old(uow.db.store.committed), a, ids, clock)
      ensures && (o.Failure? ==> r == Failure(if fault then ServerFault else o.error))
              && (o.Success? && fault ==> r == Failure(ServerFault))
              && (o.Failure? || fault ==> uow.db.store.committed == old(uow.db.store.committed))
              && (o.Success? && !fault ==>
                    && r.Success? && fresh(r.value)
                    && r.value.Header() == Stamped(o.value.0, |o.value.1|, clock) && r.value.queries == o.value.1
                    && uow.db.store.committed ==
                         Append(old(uow.db.store.committed), Tables([CaseToRow(o.value.0)], QueryRows(o.value.1)))
                    && uow.db.store.log == old(uow.db.store.log)
                         + [InsertCase(CaseToRow(o.value.0))]
                         + (if |o.value.1| > 0 then [InsertQueries(QueryRows(o.value.1))] else [])
                         + [CommitStatement])
    {
      assert uow.db.store.Visible(Some(conn)) == uow.db.store.committed by {
        assert uow.db.store.committed.cases + [] == uow.db.store.committed.cases;
        assert uow.db.store.committed.queries + [] == uow.db.store.committed.queries;
      }
      ghost var pending0 := uow.db.store.pending;
      var body;
      body, o := Body(conn, a, ids, clock);
      RemoveChanged(pending0, uow.db.store.pending, conn);
      if body.Failure? {
        var exited := uow.Exit(true, fault);
        r := if exited.Fail? then Failure(exited.error) else body;
      } else {
        ghost var written := Tables([CaseToRow(o.value.0)], QueryRows(o.value.1));
        assert uow.db.store.pending[conn] == written by {
          assert NoRows.cases + written.cases == written.cases;
          assert NoRows.queries + written.queries == written.queries;
        }
        var exited := uow.Exit(false, fault);
        r := if exited.Fail? then Failure(exited.error) else body;
      }
    }

    /** The statements inside `async with self._uow:`, on the transaction's
        connection `conn`. They write into that transaction only. */
    method Body(conn: ConnId, a: CaseInput, ids: nat -> Uuid, clock: Clock)
      returns (r: Result<SupportCase, Error>, ghost o: Result<(CaseHeader, seq<CaseQuery>), Error>)
      requires uow.db.Valid() && conn in uow.db.store.pending
      modifies uow.db.store
      ensures uow.db.Valid()
      ensures uow.db.store.pending.Keys == old(uow.db.store.pending.Keys)
      ensures forall k :: k in uow.db.store.pending && k != conn ==>
                uow.db.store.pending[k] == old(uow.db.store.pending[k])
      ensures uow.db.store.committed == old(uow.db.store.committed)
      ensures o == BodyOutcome(old(uow.db.store.Visible(Some(conn))), a, ids, clock)
      ensures && (o.Failure? ==> r == Failure(o.error))
              && (o.Success? ==>
                    && r.Success? && fresh(r.value)
                    && r.value.Header() == Stamped(o.value.0, |o.value.1|, clock) && r.value.queries == o.value.1
                    && uow.db.store.pending[conn] ==
                         Append(old(uow.db.store.pending[conn]), Tables([CaseToRow(o.value.0)], QueryRows(o.value.1)))
                    && uow.db.store.log == old(uow.db.store.log) + [InsertCase(CaseToRow(o.value.0))]
                         + (if |o.value.1| > 0 then [InsertQueries(QueryRows(o.value.1))] else []))
    {
      o := BodyOutcome(uow.db.store.Visible(Some(conn)), a, ids, clock);
      var created := NewCase(a, ids, clock);
      if created.Failure? {
        return Failure(created.error), o;
      }
      var c := created.value;
      var persisted := Persist(conn, c, a.queries, a.createdBy, ids, clock);
      if persisted.Failure? {
        return Failure(persisted.error), o;
      }
      r := Success(c);
    }

    /** Saves the new case `c`, then its queries. */
    method Persist(conn: ConnId, c: SupportCase, inputs: seq<QueryInput>, createdBy: string,
                   ids: nat -> Uuid, clock: Clock)
      returns (r: Result<seq<CaseQuery>, Error>)
      requires uow.db.Valid() && conn in uow.db.store.pending
      requires c.queries == []
      modifies uow.db.store, c
      ensures uow.db.Valid()
      ensures uow.db.store.pending.Keys == old(uow.db.store.pending.Keys)
      ensures forall k :: k in uow.db.store.pending && k != conn ==>
                uow.db.store.pending[k] == old(uow.db.store.pending[k])
      ensures uow.db.store.committed == old(uow.db.store.committed)
      ensures match PersistOutcome(old(uow.db.store.Visible(Some(conn))), old(c.Header()),
                                   BuildQueries(c.id, inputs, createdBy, ids, clock))
              case Failure(e) => r == Failure(e)
              case Success((h, qs)) =>
                && r == Success(qs) && c.Header() == Stamped(h, |qs|, clock) && c.queries == qs
                && uow.db.store.pending[conn] ==
                     Append(old(uow.db.store.pending[conn]), Tables([CaseToRow(h)], QueryRows(qs)))
                && uow.db.store.log == old(uow.db.store.log) + [InsertCase(CaseToRow(h))]
                     + (if |qs| > 0 then [InsertQueries(QueryRows(qs))] else [])
    {
      var db := uow.db;
      ghost var visible0 := db.store.Visible(Some(conn));
      ghost var h0 := c.Header();
      var caseRepo := new CaseRepositoryImpl(db, Some(conn));
      var saved := caseRepo.Save(c);
      if saved.Fail? {
        return Failure(saved.error);
      }
      assert db.store.Visible(Some(conn)).queries == visible0.queries by {
        assert visible0.queries + [] == visible0.queries;
      }
      ghost var pending0 := old(db.store.pending[conn]);
      r := SaveQueries(conn, c, inputs, createdBy, ids, clock);
      if r.Success? {
        AppendCaseThenQueries(pending0, CaseToRow(h0), QueryRows(r.value));
      }
    }

    /** The query loop on the case `c` already saved, then `save_many` when
        it built at least one query. */
    method SaveQueries(conn: ConnId, c: SupportCase, inputs: seq<QueryInput>, createdBy: string,
                       ids: nat -> Uuid, clock: Clock)
      returns (r: Result<seq<CaseQuery>, Error>)
      requires uow.db.Valid() && conn in uow.db.store.pending
      requires c.queries == []
      modifies uow.db.store, c
      ensures uow.db.Valid()
      ensures uow.db.store.pending.Keys == old(uow.db.store.pending.Keys)
      ensures forall k :: k in uow.db.store.pending && k != conn ==>
                uow.db.store.pending[k] == old(uow.db.store.pending[k])
      ensures uow.db.store.committed == old(uow.db.store.committed)
      ensures match QueriesOutcome(old(uow.db.store.Visible(Some(conn)).queries),
                                   BuildQueries(c.id, inputs, createdBy, ids, clock))
              case Failure(e) => r == Failure(e)
              case Success(qs) =>
                && r == Success(qs) && c.Header() == Stamped(old(c.Header()), |qs|, clock) && c.queries == qs
                && uow.db.store.pending[conn] ==
                     Append(old(uow.db.store.pending[conn]), Tables([], QueryRows(qs)))
                && uow.db.store.log == old(uow.db.store.log)
                     + (if |qs| > 0 then [InsertQueries(QueryRows(qs))] else [])
    {
      var queryRepo := new QueryRepositoryImpl(uow.db, Some(conn));
      ghost var pending0 := uow.db.store.pending[conn];
      ghost var log0 := uow.db.store.log;
      var built := AttachQueries(c, inputs, createdBy, ids, clock);
      if built.Failure? {
        return Failure(Validation(built.error));
      }
      var qs := built.value;
      if |qs| > 0 {
        var savedMany := queryRepo.SaveMany(qs);
        if savedMany.Fail? {
          return Failure(savedMany.error);
        }
      } else {
        assert pending0.cases + [] == pending0.cases;
        assert pending0.queries + [] == pending0.queries;
        assert log0 + [] == log0;
      }
      r := Success(qs);
    }

    /** The two enum constructors and `SupportCase.create`. */
    static method NewCase(a: CaseInput, ids: nat -> Uuid, clock: Clock)
      returns (r: Result<SupportCase, Error>)
      ensures match PrepareCase(a, ids, clock)
              case Failure(e) => r == Failure(e)
              case Success(h) => r.Success? && fresh(r.value) && r.value.Header() == h
                                 && r.value.queries == []
    {
      var t := ParseCaseType(a.caseType);
      if t.None? {
        return Failure(UnknownEnumValue(a.caseType));
      }
      var p := ParsePriority(a.priority);
      if p.None? {
        return Failure(UnknownEnumValue(a.priority));
      }
      var created := SupportCase.Create(ids(0), clock(CreatedAtTick), clock(UpdatedAtTick), a.title, t.value, p.value, a.createdBy, a.description);
      match created
      case Failure(v) => r := Failure(Validation(v));
      case Success(c) => r := Success(c);
    }

    /** The `for query_data in queries` loop: builds each query and attaches
        it to the case, stopping at the first that fails. Each `add_query`
        stamps `updated_at` with a fresh reading of the clock. */
    static method AttachQueries(c: SupportCase, inputs: seq<QueryInput>, createdBy: string,
                                ids: nat -> Uuid, clock: Clock)
      returns (r: Result<seq<CaseQuery>, ValidationFailure>)
      requires c.queries == []
      modifies c
      ensures r == BuildQueries(c.id, inputs, createdBy, ids, clock)
      ensures r.Success? ==> c.queries == r.value && c.Header() == Stamped(old(c.Header()), |r.value|, clock)
    {
      var caseQueries: seq<CaseQuery> := [];
      var i := 0;
      while i < |inputs|
        invariant 0 <= i <= |inputs| && |caseQueries| == i
        invariant forall j :: 0 <= j < i ==>
                    QueryFor(c.id, inputs[j], j, createdBy, ids, clock) == Success(caseQueries[j])
        invariant c.queries == caseQueries && c.Header() == Stamped(old(c.Header()), i, clock)
      {
        var q := QueryFor(c.id, inputs[i], i, createdBy, ids, clock);
        if q.Failure? {
          QueryAttemptsAt(c.id, inputs, createdBy, ids, clock);
          StopsAtFirstFailure(QueryAttempts(c.id, inputs, createdBy, ids, clock), i);
          return Failure(q.error);
        }
        caseQueries := caseQueries + [q.value];
        var added := c.AddQuery(q.value, clock(AddedAtTick(i)));
        i := i + 1;
      }
      QueryAttemptsAt(c.id, inputs, createdBy, ids, clock);
      AllSucceed(QueryAttempts(c.id, inputs, createdBy, ids, clock), caseQueries);
      r := Success(caseQueries);
    }
  }
}
