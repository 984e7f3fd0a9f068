/** `GetCasesUseCase` (app/application/use_cases/get_cases.py): a page of
    cases, each paired with the number of its queries. The filtering,
    sorting and paging `get_all` is not defined by the case repository of
    this system, so `Execute` takes it as a parameter. */
module GetCases {
  import opened Primitives
  import opened Errors
  import opened Entities
  import opened Storage
  import opened CaseRepository
  import opened QueryRepository
  import opened CreateCase
  import opened GetCaseById

  /** The arguments `execute` forwards to `get_all`. */
  datatype ListQuery = ListQuery(
    status: Option<string>,
    priority: Option<string>,
    caseType: Option<string>,
    createdBy: Option<string>,
    search: Option<string>,
    dateGte: Option<Timestamp>,
    dateLte: Option<Timestamp>,
    sortBy: string,
    sortOrder: string,
    page: int,
    pageSize: int)

  /** The arguments of `execute` when the caller gives none: no filter,
      newest first, the first page of ten. `Execute` takes it as the default
      of its `query` parameter. */
  const DefaultListQuery := ListQuery(None, None, None, None, None, None, None, "created_at", "desc", 1, 10)

  /** A case without query rows is counted as having none. */
  lemma NoRowsNoCount(rows: seq<QueryRow>, caseId: Uuid)
    requires forall k :: 0 <= k < |rows| ==> rows[k].caseId != caseId
    ensures QueryCount(rows, caseId) == 0
  {
    FilterDropsOthers(rows, caseId);
    FilterCounts(rows, caseId);
  }

  /** Once a creation commits, the new case is counted with exactly as many
      queries as the request carried. */
  lemma CreatedCaseCount(visible: Tables, a: CaseInput, ids: nat -> Uuid, clock: Clock)
    requires BodyOutcome(visible, a, ids, clock).Success?
    requires forall k :: 0 <= k < |visible.queries| ==> visible.queries[k].caseId in CaseIds(visible.cases)
    ensures var (h, qs) := BodyOutcome(visible, a, ids, clock).value;
            QueryCount(CreatedRows(visible, a, ids, clock).queries, h.id) == |a.queries|
  {
    var (h, qs) := BodyOutcome(visible, a, ids, clock).value;
    CreatedCaseReadsBack(visible, a, ids, clock);
    CreatedCaseShape(visible, a, ids, clock);
    var after := CreatedRows(visible, a, ids, clock);
    var back := QueriesFromRows(QueriesOf(after.queries, h.id));
    assert |back| == |qs| by {
      assert |multiset(back)| == |multiset(qs)|;
    }
    QueriesOfCount(after.queries, h.id);
  }

  class GetCasesUseCase {
    const queryRepository: QueryRepositoryImpl

    constructor (queryRepository: QueryRepositoryImpl)
      ensures this.queryRepository == queryRepository
    {
      this.queryRepository := queryRepository;
    }

    /** `execute`: `getAll` is asked once, with the arguments unchanged, and
        its error or its total is passed on. Each case of the page, in page
        order, is paired with the length of what `get_by_case_id` returns
        for it, which is the number of its rows (`QueriesOfCount`); an
        empty page asks for no queries at all. */
    method Execute(getAll: ListQuery -> Result<(seq<SupportCase>, int), Error>,
                   query: ListQuery := DefaultListQuery)
      returns (r: Result<(seq<(SupportCase, nat)>, int), Error>)
      requires queryRepository.db.Valid()
      ensures getAll(query).Failure? ==> r == Failure(getAll(query).error)
      ensures getAll(query).Success? ==>
                var (cases, total) := getAll(query).value;
                if |cases| > 0 && queryRepository.connection.None? && !queryRepository.db.initialized then
                  r == Failure(PoolNotInitialized)
                else
                  && r.Success? && r.value.1 == total && |r.value.0| == |cases|
                  && forall k :: 0 <= k < |cases| ==>
                       r.value.0[k] == (cases[k], QueryCount(queryRepository.Visible().queries, cases[k].id))
    {
      var page := getAll(query);
      if page.Failure? {
        return Failure(page.error);
      }
      var cases, total := page.value.0, page.value.1;
      ghost var rows := queryRepository.Visible().queries;
      var casesWithCount: seq<(SupportCase, nat)> := [];
      for i := 0 to |cases|
        invariant |casesWithCount| == i
        invariant i > 0 ==> queryRepository.connection.Some? || queryRepository.db.initialized
        invariant forall k :: 0 <= k < i ==> casesWithCount[k] == (cases[k], QueryCount(rows, cases[k].id))
      {
        var count := CountQueries(cases[i].id);
        if count.Failure? {
          return Failure(count.error);
        }
        casesWithCount := casesWithCount + [(cases[i], count.value)];
      }
      r := Success((casesWithCount, total));
    }

    /** `len(get_by_case_id(case_id))`: the number of the case's rows. */
    method CountQueries(caseId: Uuid) returns (r: Result<nat, Error>)
      requires queryRepository.db.Valid()
      ensures queryRepository.connection.None? && !queryRepository.db.initialized ==>
                r == Failure(PoolNotInitialized)
      ensures queryRepository.connection.Some? || queryRepository.db.initialized ==>
                r == Success(QueryCount(queryRepository.Visible().queries, caseId))
    {
      var queries := queryRepository.GetByCaseId(caseId);
      if queries.Failure? {
        return Failure(queries.error);
      }
      QueriesOfCount(queryRepository.Visible().queries, caseId);
      r := Success(|queries.value|);
    }
  }
}
