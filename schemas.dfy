/** The request and response models of the cases API
    (app/api/v1/schemas/cases.py, app/api/v1/schemas/queries.py): the field
    constraints a create request must meet before the use case runs, and the
    mapping of a case to its response body. */
module Schemas {
  import opened Primitives
  import opened Errors
  import opened ValueObjects
  import opened Text
  import opened Entities
  import opened CreateCase

  /** `QueryRequest`: three unconstrained strings. */
  datatype QueryRequest = QueryRequest(databaseName: string, schemaName: string, queryText: string)

  /** `CreateCaseRequest`, before validation. */
  datatype CreateCaseRequest = CreateCaseRequest(
    title: string,
    description: Option<string>,
    caseType: string,
    priority: string,
    queries: seq<QueryRequest>,
    createdBy: string)

  const MaxDescriptionLength := 2000

  /** The pattern `^[^@]+@[^@]+\.[^@]+$`, piece by piece: a run of non-`@`
      characters, an `@`, a run of non-`@` characters, a `.`, and a last run
      of non-`@` characters, each run non-empty. */
  predicate EmailPattern(s: string) {
    exists i, j :: 0 < i && i + 1 < j < |s| - 1 && s[i] == '@' && s[j] == '.'
                   && '@' !in s[..i] && '@' !in s[i + 1..j] && '@' !in s[j + 1..]
  }

  /** The same language described by what it demands of an address: exactly
      one `@`, with something before it, and after it a domain holding a `.`
      that is neither its first nor its last character. */
  predicate EmailShape(s: string) {
    exists i :: 0 < i < |s| && s[i] == '@' && '@' !in s[..i] && '@' !in s[i + 1..]
                && InnerDot(s[i + 1..])
  }

  predicate InnerDot(d: string) {
    exists j :: 0 < j < |d| - 1 && d[j] == '.'
  }

  /** The pattern and the shape accept the same addresses. */
  lemma EmailPatternIsShape(s: string)
    ensures EmailPattern(s) <==> EmailShape(s)
  {
    if EmailPattern(s) {
      var i, j :| 0 < i && i + 1 < j < |s| - 1 && s[i] == '@' && s[j] == '.'
                  && '@' !in s[..i] && '@' !in s[i + 1..j] && '@' !in s[j + 1..];
      PatternGivesShape(s, i, j);
    }
    if EmailShape(s) {
      var i :| 0 < i < |s| && s[i] == '@' && '@' !in s[..i] && '@' !in s[i + 1..] && InnerDot(s[i + 1..]);
      var j :| 0 < j < |s[i + 1..]| - 1 && s[i + 1..][j] == '.';
      ShapeGivesPattern(s, i, i + 1 + j);
    }
  }

  lemma PatternGivesShape(s: string, i: nat, j: nat)
    requires 0 < i && i + 1 < j < |s| - 1 && s[i] == '@' && s[j] == '.'
    requires '@' !in s[..i] && '@' !in s[i + 1..j] && '@' !in s[j + 1..]
    ensures EmailShape(s)
  {
    var d := s[i + 1..];
    assert d == s[i + 1..j] + [s[j]] + s[j + 1..];
    assert d[j - i - 1] == '.';
    assert InnerDot(d);
  }

  lemma ShapeGivesPattern(s: string, i: nat, j: nat)
    requires 0 < i && i + 1 < j < |s| - 1 && s[i] == '@' && s[j] == '.'
    requires '@' !in s[..i] && '@' !in s[i + 1..]
    ensures EmailPattern(s)
  {
    var d := s[i + 1..];
    assert d == s[i + 1..j] + s[j..];
    assert s[j..] == [s[j]] + s[j + 1..];
  }

  /** Every address the request accepts passes the entity's `@` test. */
  lemma AcceptedEmailHasAt(s: string)
    requires EmailPattern(s)
    ensures '@' in s
  {
    var i, j :| 0 < i && i + 1 < j < |s| - 1 && s[i] == '@' && s[j] == '.'
                && '@' !in s[..i] && '@' !in s[i + 1..j] && '@' !in s[j + 1..];
    assert s[i] == '@';
  }

  /** The field constraints of `CreateCaseRequest`: a title of 1 to 200
      characters as sent, an optional description of at most 2000, a type
      and a priority among the enumerated strings, and an address matching
      the pattern. The queries are not constrained. */
  predicate ValidRequest(req: CreateCaseRequest) {
    && 1 <= |req.title| <= MaxTitleLength
    && (req.description.Some? ==> |req.description.value| <= MaxDescriptionLength)
    && req.caseType in {"support", "requirement", "investigation"}
    && req.priority in {"low", "medium", "high", "critical"}
    && EmailPattern(req.createdBy)
  }

  /** The router's call of `execute`: each query request dumped to its
      three keys, everything else passed through. */
  function ToCaseInput(req: CreateCaseRequest): CaseInput {
    CaseInput(req.title, req.description, req.caseType, req.priority,
              seq(|req.queries|, k requires 0 <= k < |req.queries| =>
                    QueryInput(req.queries[k].databaseName, req.queries[k].schemaName, req.queries[k].queryText)),
              req.createdBy)
  }

  /** A request the schema accepts gets through the enum lookups, the title
      length check and the creator's `@` check of the use case: the only
      check before any write that it can still fail is the blank title. */
  lemma AcceptedRequestPrepares(req: CreateCaseRequest, ids: nat -> Uuid, clock: Clock)
    requires ValidRequest(req)
    ensures ParseCaseType(req.caseType).Some? && ParsePriority(req.priority).Some?
    ensures PrepareCase(ToCaseInput(req), ids, clock).Success? <==> !Blank(req.title)
    ensures Blank(req.title) ==> PrepareCase(ToCaseInput(req), ids, clock) == Failure(Validation(EmptyTitle))
  {
    AcceptedEmailHasAt(req.createdBy);
  }

  /** A title of one space passes the schema's length rule and is refused by
      `SupportCase.create`. */
  lemma BlankTitlePassesSchema(ids: nat -> Uuid, clock: Clock)
    ensures var req := CreateCaseRequest(" ", None, "support", "low", [], "a@b.c");
            && ValidRequest(req)
            && PrepareCase(ToCaseInput(req), ids, clock) == Failure(Validation(EmptyTitle))
  {
    var req := CreateCaseRequest(" ", None, "support", "low", [], "a@b.c");
    var s := req.createdBy;
    assert s[1] == '@' && s[3] == '.' && s[..1] == "a" && s[2..3] == "b" && s[4..] == "c";
    assert EmailPattern(s);
    assert IsSpace(req.title[0]);
    AcceptedRequestPrepares(req, ids, clock);
  }

  /** `QueryResponse`: every field of the query, as it is. */
  datatype QueryResponse = QueryResponse(
    id: Uuid,
    caseId: Uuid,
    databaseName: string,
    schemaName: string,
    queryText: string,
    executionTimeMs: Option<int>,
    rowsAffected: Option<int>,
    executedAt: Timestamp,
    executedBy: string)

  /** `CaseResponse`: the enums become strings. */
  datatype CaseResponse = CaseResponse(
    id: Uuid,
    title: string,
    description: Option<string>,
    caseType: string,
    priority: string,
    status: string,
    createdBy: string,
    createdAt: Timestamp,
    updatedAt: Timestamp,
    queries: seq<QueryResponse>)

  /** `QueryResponse.from_entity`. */
  function QueryResponseFrom(q: CaseQuery): QueryResponse {
    QueryResponse(q.id, q.caseId, q.databaseName, q.schemaName, q.queryText, q.executionTimeMs,
                  q.rowsAffected, q.executedAt, q.executedBy)
  }

  /** `CaseResponse.from_entity` for a case whose scalar fields are `h` and
      whose `queries` are `queries`. */
  function FromEntity(h: CaseHeader, queries: seq<CaseQuery>): (r: CaseResponse) {
    CaseResponse(h.id, h.title, h.description, h.caseType.Value(), h.priority.Value(), h.status.Value(),
                 h.createdBy, h.createdAt, h.updatedAt,
                 seq(|queries|, k requires 0 <= k < |queries| => QueryResponseFrom(queries[k])))
  }

  /** Reading a response back: the enum strings parsed, the queries copied.
      `None` when a string is not an enum value. */
  function ToEntity(r: CaseResponse): Option<(CaseHeader, seq<CaseQuery>)> {
    match (ParseCaseType(r.caseType), ParsePriority(r.priority), ParseStatus(r.status))
    case (Some(t), Some(p), Some(st)) =>
      Some((CaseHeader(r.id, r.title, r.description, t, p, st, r.createdBy, r.createdAt, r.updatedAt),
            seq(|r.queries|, k requires 0 <= k < |r.queries| =>
                  var q := r.queries[k];
                  CaseQuery(q.id, q.caseId, q.databaseName, q.schemaName, q.queryText, q.executionTimeMs,
                            q.rowsAffected, q.executedAt, q.executedBy))))
    case _ => None
  }

  /** The response loses nothing: the case and its queries, in their order,
      can be read back from it. */
  lemma ResponseRoundTrip(h: CaseHeader, queries: seq<CaseQuery>)
    ensures ToEntity(FromEntity(h, queries)) == Some((h, queries))
  {
    ValuesRoundTrip(h.status, h.caseType, h.priority);
    var back := ToEntity(FromEntity(h, queries)).value.1;
    assert |back| == |queries|;
    forall k | 0 <= k < |queries| ensures back[k] == queries[k] {
    }
    assert back == queries;
  }
}
