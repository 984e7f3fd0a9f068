/** The domain entities (app/domain/entities/case.py): the query record, the
    support case with its mutators, and their validating factories. `uuid4`
    and `datetime.utcnow` are parameters: `id` is the fresh identifier and
    `now` (or `createdAt` and `updatedAt`, one reading per defaulted field)
    the clock reading. */
module Entities {
  import opened Primitives
  import opened Errors
  import opened Text
  import opened ValueObjects

  /** A recorded SQL execution. The source never mutates one, so it is a
      value. */
  datatype CaseQuery = CaseQuery(
    id: Uuid,
    caseId: Uuid,
    databaseName: string,
    schemaName: string,
    queryText: string,
    executionTimeMs: Option<int>,
    rowsAffected: Option<int>,
    executedAt: Timestamp,
    executedBy: string)

  /** `CaseQuery.create`: the first failing check, in source order, or the
      query with its three text fields stripped. */
  function CreateQuery(id: Uuid, now: Timestamp, caseId: Uuid, databaseName: string,
                       schemaName: string, queryText: string, executedBy: string,
                       executionTimeMs: Option<int>, rowsAffected: Option<int>)
    : Result<CaseQuery, ValidationFailure>
  {
    if Blank(databaseName) then Failure(EmptyDatabaseName)
    else if Blank(schemaName) then Failure(EmptySchemaName)
    else if Blank(queryText) then Failure(EmptyQueryText)
    else if '@' !in executedBy then Failure(InvalidExecutorEmail)
    else Success(CaseQuery(id, caseId, Strip(databaseName), Strip(schemaName), Strip(queryText),
                           executionTimeMs, rowsAffected, now, executedBy))
  }

  /** `CaseQuery.create` checks, in this order, that the database name,
      the schema name and the query text are not empty once stripped, and
      that the executor's email holds an `@`. It reports the first check
      that fails. A query passing all four is stored with its three texts
      stripped. */
  lemma CreateQueryChecks(id: Uuid, now: Timestamp, caseId: Uuid, databaseName: string,
                          schemaName: string, queryText: string, executedBy: string,
                          executionTimeMs: Option<int>, rowsAffected: Option<int>)
    ensures var r := CreateQuery(id, now, caseId, databaseName, schemaName, queryText, executedBy,
                                 executionTimeMs, rowsAffected);
            && (r == Failure(EmptyDatabaseName) <==> Strip(databaseName) == [])
            && (r == Failure(EmptySchemaName) <==> Strip(databaseName) != [] && Strip(schemaName) == [])
            && (r == Failure(EmptyQueryText) <==>
                  Strip(databaseName) != [] && Strip(schemaName) != [] && Strip(queryText) == [])
            && (r == Failure(InvalidExecutorEmail) <==>
                  Strip(databaseName) != [] && Strip(schemaName) != [] && Strip(queryText) != []
                  && '@' !in executedBy)
            && (r.Success? <==>
                  Strip(databaseName) != [] && Strip(schemaName) != [] && Strip(queryText) != []
                  && '@' in executedBy)
            && (r.Success? ==>
                  r.value == CaseQuery(id, caseId, Strip(databaseName), Strip(schemaName), Strip(queryText),
                                       executionTimeMs, rowsAffected, now, executedBy))
  {
    BlankIffStripsToEmpty(databaseName);
    BlankIffStripsToEmpty(schemaName);
    BlankIffStripsToEmpty(queryText);
  }

  /** What a query built by `CaseQuery.create` satisfies. */
  predicate WellFormedQuery(q: CaseQuery) {
    Trimmed(q.databaseName) && Trimmed(q.schemaName) && Trimmed(q.queryText)
    && '@' in q.executedBy
  }

  /** Every query `CaseQuery.create` accepts is well formed. */
  lemma CreatedQueryIsWellFormed(id: Uuid, now: Timestamp, caseId: Uuid, databaseName: string,
                                 schemaName: string, queryText: string, executedBy: string,
                                 executionTimeMs: Option<int>, rowsAffected: Option<int>)
    requires CreateQuery(id, now, caseId, databaseName, schemaName, queryText, executedBy,
                         executionTimeMs, rowsAffected).Success?
    ensures WellFormedQuery(CreateQuery(id, now, caseId, databaseName, schemaName, queryText,
                                        executedBy, executionTimeMs, rowsAffected).value)
  {
    StripYieldsTrimmed(databaseName);
    StripYieldsTrimmed(schemaName);
    StripYieldsTrimmed(queryText);
  }

  /** Feeding a well-formed query's own fields back to the factory rebuilds it
      exactly: the factory's normalisation is a fixed point. */
  lemma RecreateQuery(q: CaseQuery)
    requires WellFormedQuery(q)
    ensures CreateQuery(q.id, q.executedAt, q.caseId, q.databaseName, q.schemaName, q.queryText,
                        q.executedBy, q.executionTimeMs, q.rowsAffected) == Success(q)
  {
    TrimmedIsFixed(q.databaseName);
    TrimmedIsFixed(q.schemaName);
    TrimmedIsFixed(q.queryText);
  }

  /** The nine scalar fields of a support case: everything except its
      `queries` list. This is what a row of `support_cases` holds. */
  datatype CaseHeader = CaseHeader(
    id: Uuid,
    title: string,
    description: Option<string>,
    caseType: CaseType,
    priority: CasePriority,
    status: CaseStatus,
    createdBy: string,
    createdAt: Timestamp,
    updatedAt: Timestamp)

  const MaxTitleLength := 200

  /** The validation and field values of `SupportCase.create`. The length
      check is on the title as given, before stripping; the description is
      not checked. `created_at` and `updated_at` each have their own default
      factory, so each is its own reading of the clock. */
  function CreateCaseHeader(id: Uuid, createdAt: Timestamp, updatedAt: Timestamp, title: string, caseType: CaseType,
                            priority: CasePriority, createdBy: string, description: Option<string>)
    : Result<CaseHeader, ValidationFailure>
  {
    if Blank(title) then Failure(EmptyTitle)
    else if |title| > MaxTitleLength then Failure(TitleTooLong)
    else if '@' !in createdBy then Failure(InvalidCreatorEmail)
    else Success(CaseHeader(id, Strip(title), description, caseType, priority, Open, createdBy, createdAt, updatedAt))
  }

  /** `SupportCase.create` checks, in this order, that the title is not
      empty once stripped, that the title as given is at most
      `MaxTitleLength` characters long, and that the creator's email holds
      an `@`. It reports the first check that fails. A case passing all
      three is open, carries the stripped title, and its two timestamps are
      the two readings it was given. */
  lemma CreateCaseHeaderChecks(id: Uuid, createdAt: Timestamp, updatedAt: Timestamp, title: string, caseType: CaseType,
                               priority: CasePriority, createdBy: string, description: Option<string>)
    ensures var r := CreateCaseHeader(id, createdAt, updatedAt, title, caseType, priority, createdBy, description);
            && (r == Failure(EmptyTitle) <==> Strip(title) == [])
            && (r == Failure(TitleTooLong) <==> Strip(title) != [] && |title| > MaxTitleLength)
            && (r == Failure(InvalidCreatorEmail) <==>
                  Strip(title) != [] && |title| <= MaxTitleLength && '@' !in createdBy)
            && (r.Success? <==> Strip(title) != [] && |title| <= MaxTitleLength && '@' in createdBy)
            && (r.Success? ==>
                  r.value == CaseHeader(id, Strip(title), description, caseType, priority,
                                        Open, createdBy, createdAt, updatedAt))
  {
    BlankIffStripsToEmpty(title);
  }

  /** What a case built by `SupportCase.create` satisfies. */
  predicate WellFormedHeader(h: CaseHeader) {
    Trimmed(h.title) && |h.title| <= MaxTitleLength && '@' in h.createdBy
  }

  /** A title that passes the checks is stored non-empty, stripped and
      within the limit. */
  lemma StoredTitleFits(title: string)
    requires !Blank(title) && |title| <= MaxTitleLength
    ensures Trimmed(Strip(title)) && |Strip(title)| <= MaxTitleLength
  {
    StripShrinks(title);
    StripYieldsTrimmed(title);
  }

  /** A created case is open, and its stored title is non-empty, at most 200
      characters long and free of surrounding whitespace. */
  lemma CreatedCaseIsWellFormed(id: Uuid, createdAt: Timestamp, updatedAt: Timestamp, title: string, caseType: CaseType,
                                priority: CasePriority, createdBy: string,
                                description: Option<string>, h: CaseHeader)
    requires CreateCaseHeader(id, createdAt, updatedAt, title, caseType, priority, createdBy, description)
             == Success(h)
    ensures WellFormedHeader(h) && h.status == Open
  {
    StoredTitleFits(title);
  }

  /** The length limit applies before stripping: a title whose stripped form
      fits may still be refused. */
  lemma LengthIsCheckedBeforeStripping(id: Uuid, createdAt: Timestamp, updatedAt: Timestamp, body: string, caseType: CaseType,
                                       priority: CasePriority, createdBy: string)
    requires |body| == MaxTitleLength && !IsSpace(body[0]) && !IsSpace(body[|body| - 1])
    ensures |Strip(body + " ")| == MaxTitleLength
    ensures CreateCaseHeader(id, createdAt, updatedAt, body + " ", caseType, priority, createdBy, None)
            == Failure(TitleTooLong)
  {
    var padded := body + " ";
    assert TrimStart(padded) == padded;
    assert padded[..|padded| - 1] == body;
    assert TrimEnd(padded) == TrimEnd(body);
  }

  /** The status each mutator accepts to start from. */
  predicate MayMarkInProgress(st: CaseStatus) { st != Closed }
  predicate MayMarkResolved(st: CaseStatus) { st == Open || st == InProgress }
  predicate MayClose(st: CaseStatus) { st == Resolved }

  /** `close()` is stricter than the table: the table lets an open case go
      straight to closed, the mutator does not. */
  lemma CloseIsStricterThanTable(st: CaseStatus)
    ensures MayClose(st) ==> st.CanTransitionTo(Closed)
    ensures Open.CanTransitionTo(Closed) && !MayClose(Open)
    ensures InProgress.CanTransitionTo(Closed) && !MayClose(InProgress)
  {
  }

  /** `mark_as_in_progress` is looser than the table: it moves a resolved case
      back and re-marks an in-progress one, neither of which the table allows. */
  lemma MarkInProgressIsLooserThanTable(st: CaseStatus)
    ensures st.CanTransitionTo(InProgress) ==> MayMarkInProgress(st)
    ensures MayMarkInProgress(Resolved) && !Resolved.CanTransitionTo(InProgress)
    ensures MayMarkInProgress(InProgress) && !InProgress.CanTransitionTo(InProgress)
  {
  }

  /** `mark_as_resolved` is looser than the table: it resolves an open case
      directly, which the table forbids. */
  lemma MarkResolvedIsLooserThanTable(st: CaseStatus)
    ensures st.CanTransitionTo(Resolved) ==> MayMarkResolved(st)
    ensures MayMarkResolved(Open) && !Open.CanTransitionTo(Resolved)
  {
  }

  /** A support case. Its status, `updated_at` and `queries` change in place. */
  class SupportCase {
    const id: Uuid
    var title: string
    var description: Option<string>
    var caseType: CaseType
    var priority: CasePriority
    var status: CaseStatus
    var createdBy: string
    var createdAt: Timestamp
    var updatedAt: Timestamp
    var queries: seq<CaseQuery>

    /** The scalar fields as a value. */
    function Header(): CaseHeader
      reads this
    {
      CaseHeader(id, title, description, caseType, priority, status, createdBy, createdAt, updatedAt)
    }

    /** The composition invariant: every attached query belongs to this case. */
    predicate OwnsQueries()
      reads this
    {
      forall k :: 0 <= k < |queries| ==> queries[k].caseId == id
    }

    /** The dataclass constructor, every field given. */
    constructor (h: CaseHeader, qs: seq<CaseQuery>)
      ensures Header() == h && queries == qs
    {
      id := h.id;
      title := h.title;
      description := h.description;
      caseType := h.caseType;
      priority := h.priority;
      status := h.status;
      createdBy := h.createdBy;
      createdAt := h.createdAt;
      updatedAt := h.updatedAt;
      queries := qs;
    }

    /** `SupportCase.create`: a fresh open case without queries, or the first
        validation failure. */
    static method Create(id: Uuid, createdAt: Timestamp, updatedAt: Timestamp, title: string, caseType: CaseType,
                         priority: CasePriority, createdBy: string, description: Option<string>)
      returns (r: Result<SupportCase, ValidationFailure>)
      ensures match CreateCaseHeader(id, createdAt, updatedAt, title, caseType, priority, createdBy, description)
              case Failure(e) => r == Failure(e)
              case Success(h) => r.Success? && fresh(r.value) && r.value.Header() == h
                                 && r.value.queries == []
    {
      var h := CreateCaseHeader(id, createdAt, updatedAt, title, caseType, priority, createdBy, description);
      match h
      case Failure(e) => r := Failure(e);
      case Success(hd) =>
        var c := new SupportCase(hd, []);
        r := Success(c);
    }

    /** `add_query`: refuses a query of another case and changes nothing;
        otherwise appends it and stamps `updated_at`. */
    method AddQuery(q: CaseQuery, now: Timestamp) returns (r: Outcome<ValidationFailure>)
      modifies this
      ensures q.caseId != id ==> r == Fail(QueryNotOwned) && unchanged(this)
      ensures q.caseId == id ==> r == Pass && queries == old(queries) + [q]
                                 && Header() == old(Header()).(updatedAt := now)
      ensures old(OwnsQueries()) ==> OwnsQueries()
    {
      if q.caseId != id {
        return Fail(QueryNotOwned);
      }
      queries := queries + [q];
      updatedAt := now;
      r := Pass;
    }

    /** `mark_as_in_progress`: refused only from CLOSED. */
    method MarkAsInProgress(now: Timestamp) returns (r: Outcome<ValidationFailure>)
      modifies this
      ensures !MayMarkInProgress(old(status)) ==> r == Fail(CaseClosed) && unchanged(this)
      ensures MayMarkInProgress(old(status)) ==>
                r == Pass && Header() == old(Header()).(status := InProgress, updatedAt := now)
                && queries == old(queries)
    {
      if status == Closed {
        return Fail(CaseClosed);
      }
      status := InProgress;
      updatedAt := now;
      r := Pass;
    }

    /** `mark_as_resolved`: allowed only from OPEN or IN_PROGRESS. */
    method MarkAsResolved(now: Timestamp) returns (r: Outcome<ValidationFailure>)
      modifies this
      ensures !MayMarkResolved(old(status)) ==> r == Fail(NotResolvable) && unchanged(this)
      ensures MayMarkResolved(old(status)) ==>
                r == Pass && Header() == old(Header()).(status := Resolved, updatedAt := now)
                && queries == old(queries)
    {
      if status !in [Open, InProgress] {
        return Fail(NotResolvable);
      }
      status := Resolved;
      updatedAt := now;
      r := Pass;
    }

    /** `close`: allowed only from RESOLVED. */
    method Close(now: Timestamp) returns (r: Outcome<ValidationFailure>)
      modifies this
      ensures !MayClose(old(status)) ==> r == Fail(NotClosable) && unchanged(this)
      ensures MayClose(old(status)) ==>
                r == Pass && Header() == old(Header()).(status := Closed, updatedAt := now)
                && queries == old(queries)
    {
      if status != Resolved {
        return Fail(NotClosable);
      }
      status := Closed;
      updatedAt := now;
      r := Pass;
    }
  }
}
