/** `GetCaseByIdUseCase` (app/application/use_cases/get_case_by_id.py): one
    case with the queries recorded against it. */
module GetCaseById {
  import opened Primitives
  import opened Errors
  import opened Text
  import opened Entities
  import opened Storage
  import opened CaseRepository
  import opened QueryRepository
  import opened CreateCase

  /** What `execute` yields on tables `t`: nothing when no case row has the
      id, the error of a row that does not map back to a case, or the case
      together with its queries in `executed_at` order. */
  function CaseWithQueries(t: Tables, id: Uuid): Result<Option<(CaseHeader, seq<CaseQuery>)>, Error> {
    match FindCase(t.cases, id)
    case None => Success(None)
    case Some(row) =>
      match CaseFromRow(row)
      case Failure(e) => Failure(e)
      case Success(h) => Success(Some((h, QueriesFromRows(QueriesOf(t.queries, id)))))
  }

  /** The case returned is the one with the requested id, and every query
      returned belongs to it, in time order; no case means no row. */
  lemma CaseWithQueriesShape(t: Tables, id: Uuid)
    ensures CaseWithQueries(t, id) == Success(None) <==> id !in CaseIds(t.cases)
    ensures CaseWithQueries(t, id).Success? && CaseWithQueries(t, id).value.Some? ==>
              var (h, qs) := CaseWithQueries(t, id).value.value;
              && h.id == id
              && (forall k :: 0 <= k < |qs| ==> qs[k].caseId == id)
              && InTimeOrder(qs)
  {
    var rows := QueriesOf(t.queries, id);
    QueriesOfAreTheCasesRows(t.queries, id);
    var qs := QueriesFromRows(rows);
    assert forall k :: 0 <= k < |qs| ==> qs[k] == QueryFromRow(rows[k]);
  }

  /** The rows a successful creation writes beside `visible`. */
  function CreatedRows(visible: Tables, a: CaseInput, ids: nat -> Uuid, clock: Clock): Tables
    requires BodyOutcome(visible, a, ids, clock).Success?
  {
    var (h, qs) := BodyOutcome(visible, a, ids, clock).value;
    Append(visible, Tables([CaseToRow(h)], QueryRows(qs)))
  }

  /** Whatever to-be-committed creation succeeds, on a table whose query rows
      all belong to existing cases (the foreign key of `case_queries`),
      reading the new case back yields the case as it was built, and its
      queries rearranged into `executed_at` order. */
  lemma CreatedCaseReadsBack(visible: Tables, a: CaseInput, ids: nat -> Uuid, clock: Clock)
    requires BodyOutcome(visible, a, ids, clock).Success?
    requires forall k :: 0 <= k < |visible.queries| ==> visible.queries[k].caseId in CaseIds(visible.cases)
    ensures var (h, qs) := BodyOutcome(visible, a, ids, clock).value;
            var got := CaseWithQueries(CreatedRows(visible, a, ids, clock), h.id);
            && got.Success? && got.value.Some? && got.value.value.0 == h
            && multiset(got.value.value.1) == multiset(qs)
            && InTimeOrder(got.value.value.1)
  {
    var (h, qs) := BodyOutcome(visible, a, ids, clock).value;
    CreatedCaseShape(visible, a, ids, clock);
    SavedCaseIsFound(visible.cases, h);
    forall k | 0 <= k < |visible.queries| ensures visible.queries[k].caseId != h.id {
      assert visible.queries[k].caseId in CaseIds(visible.cases);
    }
    SavedQueriesReadBackPermuted(visible.queries, qs, h.id);
  }

  /** When the queries' `executed_at` readings strictly increase, the
      queries come back exactly in input order, whatever the server does
      with rows of equal time. */
  lemma CreatedCaseReadsBackInOrder(visible: Tables, a: CaseInput, ids: nat -> Uuid, clock: Clock)
    requires BodyOutcome(visible, a, ids, clock).Success?
    requires forall k :: 0 <= k < |visible.queries| ==> visible.queries[k].caseId in CaseIds(visible.cases)
    requires forall i: nat, j: nat :: i < j < |a.queries| ==> clock(ExecutedAtTick(i)) < clock(ExecutedAtTick(j))
    ensures var (h, qs) := BodyOutcome(visible, a, ids, clock).value;
            CaseWithQueries(CreatedRows(visible, a, ids, clock), h.id) == Success(Some((h, qs)))
  {
    var (h, qs) := BodyOutcome(visible, a, ids, clock).value;
    CreatedCaseShape(visible, a, ids, clock);
    SavedCaseIsFound(visible.cases, h);
    assert StrictlyInTimeOrder(qs);
    forall k | 0 <= k < |visible.queries| ensures visible.queries[k].caseId != h.id {
      assert visible.queries[k].caseId in CaseIds(visible.cases);
    }
    SavedQueriesReadBackInOrder(visible.queries, qs, h.id);
  }

  /** Reading a new case back gives it the `updated_at` of its creation,
      while `execute` returned it with the stamp of its last `add_query`:
      the two agree on every other field, and differ whenever those two
      readings of the clock do. */
  lemma ReadBackIsUnstamped(visible: Tables, a: CaseInput, ids: nat -> Uuid, clock: Clock)
    requires BodyOutcome(visible, a, ids, clock).Success?
    requires forall k :: 0 <= k < |visible.queries| ==> visible.queries[k].caseId in CaseIds(visible.cases)
    ensures var (h, qs) := BodyOutcome(visible, a, ids, clock).value;
            var got := CaseWithQueries(CreatedRows(visible, a, ids, clock), h.id);
            var returned := Stamped(h, |qs|, clock);
            && got.Success? && got.value.Some?
            && got.value.value.0 == returned.(updatedAt := clock(UpdatedAtTick))
            && (|qs| > 0 && clock(AddedAtTick(|qs| - 1)) != clock(UpdatedAtTick) ==>
                  got.value.value.0 != returned)
  {
    CreatedCaseReadsBack(visible, a, ids, clock);
    CreatedCaseShape(visible, a, ids, clock);
  }

  /** A case with one query on a clock that ticks once per reading: the
      stored `updated_at` is the second reading, the returned one the
      fourth. */
  lemma OneQueryShowsTheDifference(ids: nat -> Uuid)
    ensures var a := CaseInput("t", None, "support", "low", [QueryInput("db", "s", "q")], "a@b");
            var clock: Clock := n => n;
            && BodyOutcome(NoRows, a, ids, clock).Success?
            && BodyOutcome(NoRows, a, ids, clock).value.0.updatedAt == 1
            && Stamped(BodyOutcome(NoRows, a, ids, clock).value.0, 1, clock).updatedAt == 3
  {
    var a := CaseInput("t", None, "support", "low", [QueryInput("db", "s", "q")], "a@b");
    var clock: Clock := n => n;
    assert !IsSpace('t') && !IsSpace('d') && !IsSpace('s') && !IsSpace('q');
    assert Strip("t") == "t";
    assert Strip("db") == "db";
    assert Strip("s") == "s";
    assert Strip("q") == "q";
    assert '@' in a.createdBy by { assert a.createdBy[1] == '@'; }
    assert PrepareCase(a, ids, clock).Success?;
    var h := PrepareCase(a, ids, clock).value;
    assert h.updatedAt == 1;
    var q := QueryFor(h.id, a.queries[0], 0, a.createdBy, ids, clock);
    assert q == Success(CaseQuery(ids(1), ids(0), "db", "s", "q", None, None, 2, "a@b"));
    QueryAttemptsAt(h.id, a.queries, a.createdBy, ids, clock);
    AllSucceed(QueryAttempts(h.id, a.queries, a.createdBy, ids, clock), [q.value]);
    assert FreshQueryIds([], QueryRows([CaseQuery(ids(1), ids(0), "db", "s", "q", None, None, 2, "a@b")]));
    assert BodyOutcome(NoRows, a, ids, clock).Success?;
  }

  class GetCaseByIdUseCase {
    const caseRepository: CaseRepositoryImpl
    const queryRepository: QueryRepositoryImpl

    constructor (caseRepository: CaseRepositoryImpl, queryRepository: QueryRepositoryImpl)
      ensures this.caseRepository == caseRepository && this.queryRepository == queryRepository
    {
      this.caseRepository := caseRepository;
      this.queryRepository := queryRepository;
    }

    /** `execute`: the case from `get_by_id`, or nothing without asking for
        queries; otherwise that case with its `queries` replaced by what
        `get_by_case_id` returns and every other field untouched. */
    method Execute(caseId: Uuid) returns (r: Result<Option<SupportCase>, Error>)
      requires caseRepository.db.Valid() && queryRepository.db.Valid()
      ensures caseRepository.connection.None? && !caseRepository.db.initialized ==>
                r == Failure(PoolNotInitialized)
      ensures caseRepository.connection.Some? || caseRepository.db.initialized ==>
                match FindCase(caseRepository.Visible().cases, caseId)
                case None => r == Success(None)
                case Some(row) =>
                  match CaseFromRow(row)
                  case Failure(e) => r == Failure(e)
                  case Success(h) =>
                    if queryRepository.connection.None? && !queryRepository.db.initialized then
                      r == Failure(PoolNotInitialized)
                    else
                      && r.Success? && r.value.Some? && fresh(r.value.value)
                      && r.value.value.Header() == h
                      && r.value.value.queries == QueriesFromRows(QueriesOf(queryRepository.Visible().queries, caseId))
      ensures // both repositories on one pool and route, as the application wires them
              && queryRepository.db == caseRepository.db && queryRepository.connection == caseRepository.connection
              && (caseRepository.connection.Some? || caseRepository.db.initialized) ==>
                match CaseWithQueries(caseRepository.Visible(), caseId)
                case Failure(e) => r == Failure(e)
                case Success(None) => r == Success(None)
                case Success(Some((h, qs))) =>
                  && r.Success? && r.value.Some? && fresh(r.value.value)
                  && r.value.value.Header() == h && r.value.value.queries == qs
    {
      var found := caseRepository.GetById(caseId);
      if found.Failure? {
        return Failure(found.error);
      }
      if found.value.None? {
        return Success(None);
      }
      var c := found.value.value;
      var queries := queryRepository.GetByCaseId(caseId);
      if queries.Failure? {
        return Failure(queries.error);
      }
      c.queries := queries.value;
      r := Success(Some(c));
    }
  }
}
